// The thread counters of the pool are exact, and no signal to its workers is lost.

module PoolCounters {
  import opened Common
  import opened PoolProtocol
  import opened PoolInvariants

  ghost function Busy(x: Worker): nat { if x.phase.Running? then 1 else 0 }

  ghost function Alive(x: Worker): nat { if x.phase.NotStarted? || x.phase.Joined? then 0 else 1 }

  ghost function Started(x: Worker): nat { if x.phase.NotStarted? then 0 else 1 }

  ghost function WokenUp(x: Worker): nat { if x.phase.Woken? then 1 else 0 }

  /** busyThreadNum counts the workers between their two counter updates, aliveThreadNum those started and not joined,
      idleThreadNum the rest of the alive ones. */
  ghost predicate CountInv(p: Pool) {
    && p.busy == Sum(p.workers, Busy)
    && p.alive == Sum(p.workers, Alive)
    && p.busy + p.idle == p.alive
    && p.maxIdx == Sum(p.workers, Started)
  }

  /** maxThreadIdx has handed out distinct indices to the started workers. */
  ghost predicate IndicesInv(p: Pool) {
    && (forall w | 0 <= w < |p.workers| :: p.workers[w].idx.None? <==> p.workers[w].phase.NotStarted?)
    && (forall w | 0 <= w < |p.workers| && p.workers[w].idx.Some? :: p.workers[w].idx.value < p.maxIdx)
    && (forall v, w | 0 <= v < w < |p.workers| && p.workers[v].idx.Some? && p.workers[w].idx.Some? ::
          p.workers[v].idx != p.workers[w].idx)
  }

  /** If some worker sleeps, every task in the queue has a woken worker on its way to it. */
  ghost predicate WakeInv(p: Pool) {
    forall w | 0 <= w < |p.workers| && IsAsleep(p.workers[w]) :: p.Todo() <= Sum(p.workers, WokenUp)
  }

  lemma CountersFit(ws: seq<Worker>)
    requires |ws| == THREAD_POOL_SIZE
    ensures Sum(ws, Busy) <= Sum(ws, Alive) <= Sum(ws, Started) <= THREAD_POOL_SIZE
  {
    SumOrdered(ws, Busy, Alive);
    SumOrdered(ws, Alive, Started);
  }

  lemma WakeKeepsCounts(ws: seq<Worker>, wake: set<nat>)
    ensures var ws' := WakeWorkers(ws, wake);
            Sum(ws', Busy) == Sum(ws, Busy) && Sum(ws', Alive) == Sum(ws, Alive) && Sum(ws', Started) == Sum(ws, Started)
  {
    var ws' := WakeWorkers(ws, wake);
    SumGrows(ws, ws', Busy);
    SumGrows(ws, ws', Alive);
    SumGrows(ws, ws', Started);
  }

  lemma UpdateCounts(ws: seq<Worker>, w: nat, x: Worker)
    requires w < |ws|
    ensures var ws' := ws[w := x];
            && Sum(ws', Busy) + Busy(ws[w]) == Sum(ws, Busy) + Busy(x)
            && Sum(ws', Alive) + Alive(ws[w]) == Sum(ws, Alive) + Alive(x)
            && Sum(ws', Started) + Started(ws[w]) == Sum(ws, Started) + Started(x)
            && Sum(ws', WokenUp) + WokenUp(ws[w]) == Sum(ws, WokenUp) + WokenUp(x)
  {
    SumUpdate(ws, w, x, Busy);
    SumUpdate(ws, w, x, Alive);
    SumUpdate(ws, w, x, Started);
    SumUpdate(ws, w, x, WokenUp);
  }

  /** The worker whose phase a step changes, if it is one worker. */
  ghost function Actor(p: Pool, e: Event): (w: Option<nat>)
    requires Enabled(p, e)
    ensures w.Some? ==> w.value < |p.workers|
    ensures !e.Submit? ==>
      Step(p, e).workers == if w.Some? then p.workers[w.value := Step(p, e).workers[w.value]] else p.workers
  {
    match e
    case Submit(_, _) => None
    case Close => None
    case Join => Some(p.joined)
    case _ => Some(e.w)
  }

  /** Every counter update of the C code finds its counter in range, so no increment or decrement wraps. */
  lemma StepKeepsCountInv(p: Pool, e: Event)
    requires HoldersInv(p) && CountInv(p) && Enabled(p, e)
    ensures CountInv(Step(p, e))
    ensures e.CountBusy? ==> p.idle > 0
    ensures e.CountIdle? ==> p.busy > 0
    ensures e.Join? ==> p.idle > 0 && p.alive > 0
  {
    if e.Submit? {
      WakeKeepsCounts(p.workers, e.wake);
    } else if Actor(p, e).Some? {
      var w := Actor(p, e).value;
      var x := Step(p, e).workers[w];
      CounterUpdate(p, w, x);
      CounterStep(p, e, w, x);
    }
  }

  /** The four counters after one worker's change of phase, as sums. */
  lemma CounterUpdate(p: Pool, w: nat, x: Worker)
    requires |p.workers| == THREAD_POOL_SIZE && CountInv(p) && w < |p.workers|
    ensures var ws := p.workers[w := x];
            && Sum(ws, Busy) == p.busy - Busy(p.workers[w]) + Busy(x)
            && Sum(ws, Alive) == p.alive - Alive(p.workers[w]) + Alive(x)
            && Sum(ws, Started) == p.maxIdx - Started(p.workers[w]) + Started(x)
            && Sum(ws, Busy) <= Sum(ws, Alive) <= Sum(ws, Started) <= THREAD_POOL_SIZE
    ensures p.busy <= p.alive <= p.maxIdx <= THREAD_POOL_SIZE
  {
    UpdateCounts(p.workers, w, x);
    CountersFit(p.workers);
    CountersFit(p.workers[w := x]);
  }

  /** The C code's increments and decrements of the counters, against the phases before and after. */
  lemma CounterStep(p: Pool, e: Event, w: nat, x: Worker)
    requires Enabled(p, e) && Actor(p, e) == Some(w) && x == Step(p, e).workers[w]
    requires p.busy + p.idle == p.alive && p.busy <= p.alive <= p.maxIdx <= THREAD_POOL_SIZE
    requires 0 <= p.busy - Busy(p.workers[w]) + Busy(x) <= p.alive - Alive(p.workers[w]) + Alive(x)
    requires p.alive - Alive(p.workers[w]) + Alive(x) <= p.maxIdx - Started(p.workers[w]) + Started(x) <= THREAD_POOL_SIZE
    ensures var p' := Step(p, e);
            && p'.busy == p.busy - Busy(p.workers[w]) + Busy(x)
            && p'.alive == p.alive - Alive(p.workers[w]) + Alive(x)
            && p'.maxIdx == p.maxIdx - Started(p.workers[w]) + Started(x)
            && p'.busy + p'.idle == p'.alive
    ensures e.CountBusy? ==> p.idle > 0
    ensures e.CountIdle? ==> p.busy > 0
    ensures e.Join? ==> p.idle > 0 && p.alive > 0
  {
    assert w == (if e.Join? then p.joined else e.w) && !e.Submit? && !e.Close?;
    hide Actor;
    if e.Check? {
      assert Step(p, e).busy == p.busy && Step(p, e).idle == p.idle && Step(p, e).alive == p.alive;
    }
  }

  lemma StartKeepsIndices(p: Pool, w: nat)
    requires HoldersInv(p) && CountInv(p) && IndicesInv(p) && Enabled(p, Start(w))
    ensures IndicesInv(Step(p, Start(w)))
  {
    CountersFit(p.workers);
    assert Step(p, Start(w)).maxIdx == p.maxIdx + 1;
  }

  lemma StepKeepsIndices(p: Pool, e: Event)
    requires HoldersInv(p) && CountInv(p) && IndicesInv(p) && Enabled(p, e)
    ensures IndicesInv(Step(p, e))
  {
    hide HoldersInv, CountInv;
    if e.Start? {
      StartKeepsIndices(p, e.w);
    } else {
      var p' := Step(p, e);
      assert forall w | 0 <= w < |p.workers| ::
        p'.workers[w].idx == p.workers[w].idx && (p'.workers[w].phase.NotStarted? <==> p.workers[w].phase.NotStarted?);
    }
  }

  lemma SubmitKeepsWakeInv(p: Pool, task: Task, wake: set<nat>)
    requires WakeInv(p) && Enabled(p, Submit(task, wake))
    ensures WakeInv(Step(p, Submit(task, wake)))
  {
    var p' := Step(p, Submit(task, wake));
    SumGrows(p.workers, p'.workers, WokenUp);
    if w :| 0 <= w < |p'.workers| && IsAsleep(p'.workers[w]) {
      assert w in Sleepers(p.workers);
      var v :| v in wake;
      assert v in Sleepers(p.workers);
      assert WokenUp(p.workers[v]) < WokenUp(p'.workers[v]);
    }
  }

  lemma StepKeepsWakeInv(p: Pool, e: Event)
    requires HoldersInv(p) && WakeInv(p) && Enabled(p, e)
    ensures WakeInv(Step(p, e))
  {
    if e.Submit? {
      SubmitKeepsWakeInv(p, e.task, e.wake);
    } else if Actor(p, e).Some? {
      var w := Actor(p, e).value;
      UpdateCounts(p.workers, w, Step(p, e).workers[w]);
    }
  }

  /** A non-empty queue never meets a pool whose every worker is asleep, exited or joined with one of them asleep: some
      worker has been woken and will look at the queue. */
  lemma NoLostWakeup(p: Pool, w: nat) returns (v: nat)
    requires EntriesInv(p) && WakeInv(p)
    requires w < |p.workers| && IsAsleep(p.workers[w]) && p.Todo() > 0
    ensures v < |p.workers| && p.workers[v].phase.Woken?
    ensures Enabled(p, Check(v)) && Step(p, Check(v)).Todo() == p.Todo() - 1
  {
    v := SumWitness(p.workers, WokenUp);
  }
}
