// What every step of the thread pool keeps, whatever the order of the steps.

module PoolInvariants {
  import opened Common
  import opened PoolProtocol

  /** Taken entries are exactly those before head; a sentinel has no function, an ordinary task is run at most once. */
  ghost predicate EntriesInv(p: Pool) {
    && p.head <= |p.log|
    && (forall i | 0 <= i < |p.log| :: p.log[i].taker.Some? <==> i < p.head)
    && (forall i | 0 <= i < |p.log| :: p.log[i].runs <= 1)
    && (forall i | 0 <= i < |p.log| && p.log[i].runs == 1 :: i < p.head && p.log[i].task.Work?)
  }

  /** Whatever a worker has in hand it took itself and has not finished; the phase says which kind of task it is. */
  ghost predicate WorkersInv(p: Pool) {
    && |p.workers| == THREAD_POOL_SIZE
    && (forall w | 0 <= w < |p.workers| && p.workers[w].Held().Some? ::
          && p.workers[w].Held().value < |p.log|
          && p.log[p.workers[w].Held().value].taker == Some(w)
          && p.log[p.workers[w].Held().value].runs == 0
          && (p.workers[w].phase.Running? ==> p.log[p.workers[w].Held().value].task.Work?)
          && (p.workers[w].phase.Exited? || p.workers[w].phase.Joined? ==> p.log[p.workers[w].Held().value].task.Sentinel?))
  }

  /** Every entry taken and not finished is in the hands of its taker. */
  ghost predicate HeldInv(p: Pool) {
    && (forall i | 0 <= i < |p.log| && p.log[i].taker.Some? :: p.log[i].taker.value < |p.workers|)
    && (forall i, w {:trigger p.log[i], p.workers[w]} |
          0 <= i < |p.log| && 0 <= w < |p.workers| && p.log[i].taker == Some(w) && p.log[i].runs == 0 ::
          p.workers[w].Held() == Some(i))
  }

  ghost predicate HoldersInv(p: Pool) {
    EntriesInv(p) && WorkersInv(p) && HeldInv(p)
  }

  /** The index of requests names exactly the ordinary tasks. */
  ghost predicate SlotsInv(p: Pool) {
    && (forall r {:trigger p.slots[r]} | r in p.slots :: p.slots[r] < |p.log| && p.log[p.slots[r]].task == Work(r))
    && (forall i | 0 <= i < |p.log| && p.log[i].task.Work? :: p.log[i].task.req in p.slots)
    && (forall i, r {:trigger p.log[i], p.slots[r]} | 0 <= i < |p.log| && p.log[i].task == Work(r) && r in p.slots ::
          p.slots[r] == i)
  }

  /** The list of sentinels names exactly the sentinels, in order. */
  ghost predicate SentinelsInv(p: Pool) {
    && (forall k | 0 <= k < |p.sentinels| :: p.sentinels[k] < |p.log| && p.log[p.sentinels[k]].task == Sentinel(k))
    && (forall j, k | 0 <= j < k < |p.sentinels| :: p.sentinels[j] < p.sentinels[k])
    && (forall i | 0 <= i < |p.log| && p.log[i].task.Sentinel? :: p.log[i].task.nth < |p.sentinels|)
    && (forall i, k {:trigger p.log[i], p.sentinels[k]} |
          0 <= i < |p.log| && 0 <= k < |p.sentinels| && p.log[i].task == Sentinel(k) :: p.sentinels[k] == i)
  }

  /** Both describe the queue exactly; no sentinel is sent while the pool is running. */
  ghost predicate IndexInv(p: Pool) {
    && SlotsInv(p) && SentinelsInv(p)
    && (p.isRunning ==> p.sentinels == [])
    && |p.sentinels| <= THREAD_POOL_SIZE
    && |p.log| - |p.sentinels| <= MAX_TASKS
  }

  /** Joins follow the fifth sentinel, in the order of the threads; nothing behind the fifth sentinel is ever taken. */
  ghost predicate ShutdownInv(p: Pool) {
    && p.joined <= THREAD_POOL_SIZE
    && (p.joined > 0 ==> |p.sentinels| == THREAD_POOL_SIZE)
    && (forall w | 0 <= w < |p.workers| :: p.workers[w].phase.Joined? <==> w < p.joined)
    && (|p.sentinels| == THREAD_POOL_SIZE ==> p.head <= p.sentinels[4] + 1)
  }

  ghost predicate LogInv(p: Pool) {
    HoldersInv(p) && IndexInv(p) && ShutdownInv(p)
  }

  // ---------------------------------------------------------------- one lemma per invariant

  /** A worker that moves on with the same task in hand, or with none, disturbs no holder. */
  lemma PhaseChangeKeepsHolders(p: Pool, p': Pool, w: nat)
    requires HoldersInv(p) && w < |p.workers|
    requires p'.log == p.log && p'.head == p.head && |p'.workers| == |p.workers|
    requires forall v | 0 <= v < |p.workers| && v != w :: p'.workers[v] == p.workers[v]
    requires p'.workers[w].Held() == p.workers[w].Held()
    requires p'.workers[w].phase.Running? ==> p.log[p'.workers[w].phase.i].task.Work?
    requires p'.workers[w].phase.Exited? || p'.workers[w].phase.Joined? ==> p.log[p'.workers[w].phase.i].task.Sentinel?
    ensures HoldersInv(p')
  {
  }

  lemma SubmitKeepsHolders(p: Pool, task: Task, wake: set<nat>)
    requires HoldersInv(p) && Enabled(p, Submit(task, wake))
    ensures HoldersInv(Step(p, Submit(task, wake)))
  {
  }

  lemma TakeKeepsHolders(p: Pool, w: nat)
    requires HoldersInv(p) && Enabled(p, Check(w)) && p.Todo() > 0
    ensures HoldersInv(Step(p, Check(w)))
  {
    TakeKeepsEntries(p, w);
    TakeKeepsWorkers(p, w);
    TakeKeepsHeld(p, w);
  }

  lemma TakeKeepsEntries(p: Pool, w: nat)
    requires EntriesInv(p) && Enabled(p, Check(w)) && p.Todo() > 0
    ensures EntriesInv(Step(p, Check(w)))
  {
  }

  /** The entry at the head was in nobody's hands. */
  lemma TakeKeepsWorkers(p: Pool, w: nat)
    requires EntriesInv(p) && WorkersInv(p) && Enabled(p, Check(w)) && p.Todo() > 0
    ensures WorkersInv(Step(p, Check(w)))
  {
    assert p.log[p.head].taker == None;
    assert forall v | 0 <= v < |p.workers| && p.workers[v].Held().Some? :: p.workers[v].Held().value != p.head;
  }

  /** The worker that takes it had nothing in its hands. */
  lemma TakeKeepsHeld(p: Pool, w: nat)
    requires EntriesInv(p) && HeldInv(p) && Enabled(p, Check(w)) && p.Todo() > 0
    ensures HeldInv(Step(p, Check(w)))
  {
    assert Step(p, Check(w)).workers[w].Held() == Some(p.head);
    assert forall i | 0 <= i < |p.log| && p.log[i].taker.Some? && p.log[i].runs == 0 :: p.log[i].taker.value != w;
  }

  lemma CountIdleKeepsHolders(p: Pool, w: nat)
    requires HoldersInv(p) && Enabled(p, CountIdle(w))
    ensures HoldersInv(Step(p, CountIdle(w)))
  {
  }

  lemma StepKeepsHolders(p: Pool, e: Event)
    requires LogInv(p) && Enabled(p, e)
    ensures HoldersInv(Step(p, e))
  {
    match e
    case Submit(task, wake) => SubmitKeepsHolders(p, task, wake);
    case Check(w) => if p.Todo() == 0 { PhaseChangeKeepsHolders(p, Step(p, e), w); } else { TakeKeepsHolders(p, w); }
    case CountIdle(w) => CountIdleKeepsHolders(p, w);
    case Close =>
    case _ => PhaseStepKeepsHolders(p, e);
  }

  /** The steps that only move one worker on and count. */
  lemma PhaseStepKeepsHolders(p: Pool, e: Event)
    requires HoldersInv(p) && IndexInv(p) && Enabled(p, e)
    requires e.Start? || e.Spurious? || e.Exit? || e.CountBusy? || e.Move? || e.Join?
    ensures HoldersInv(Step(p, e))
  {
    hide EntriesInv, HeldInv;
    var w := if e.Join? then p.joined else e.w;
    PhaseChangeKeepsHolders(p, Step(p, e), w);
  }

  /** Taking or finishing an entry leaves its task alone, so the index stays right. */
  lemma SameTasksKeepIndex(p: Pool, p': Pool)
    requires IndexInv(p)
    requires |p'.log| == |p.log| && forall i | 0 <= i < |p.log| :: p'.log[i].task == p.log[i].task
    requires p'.slots == p.slots && p'.sentinels == p.sentinels && (p'.isRunning ==> p.isRunning)
    ensures IndexInv(p')
  {
  }

  lemma SubmitWorkKeepsIndex(p: Pool, p': Pool, r0: nat)
    requires IndexInv(p) && r0 !in p.slots && |p.log| - |p.sentinels| < MAX_TASKS
    requires p'.log == p.log + [Entry(Work(r0), None, 0)] && p'.slots == p.slots[r0 := |p.log|]
    requires p'.sentinels == p.sentinels && p'.isRunning == p.isRunning
    ensures IndexInv(p')
  {
    hide SlotsInv, SentinelsInv;
    SubmitWorkKeepsSlots(p, p', r0);
    SubmitWorkKeepsSentinels(p, p', r0);
  }

  lemma SubmitWorkKeepsSlots(p: Pool, p': Pool, r0: nat)
    requires SlotsInv(p) && r0 !in p.slots
    requires p'.log == p.log + [Entry(Work(r0), None, 0)] && p'.slots == p.slots[r0 := |p.log|]
    ensures SlotsInv(p')
  {
    forall i, r | 0 <= i < |p'.log| && p'.log[i].task == Work(r)
      ensures r in p'.slots && p'.slots[r] == i
    {
      if i < |p.log| {
        assert p'.log[i] == p.log[i];
        assert p.log[i].task.req in p.slots && p.slots[r] == i;
      }
    }
  }

  lemma SubmitWorkKeepsSentinels(p: Pool, p': Pool, r0: nat)
    requires SentinelsInv(p) && p'.log == p.log + [Entry(Work(r0), None, 0)] && p'.sentinels == p.sentinels
    ensures SentinelsInv(p')
  {
  }

  lemma SubmitSentinelKeepsIndex(p: Pool, p': Pool)
    requires IndexInv(p) && !p.isRunning && |p.sentinels| < THREAD_POOL_SIZE
    requires p'.log == p.log + [Entry(Sentinel(|p.sentinels|), None, 0)] && p'.slots == p.slots
    requires p'.sentinels == p.sentinels + [|p.log|] && p'.isRunning == p.isRunning
    ensures IndexInv(p')
  {
    hide SlotsInv, SentinelsInv;
    SubmitSentinelKeepsSlots(p, p');
    SubmitSentinelKeepsSentinels(p, p');
  }

  lemma SubmitSentinelKeepsSlots(p: Pool, p': Pool)
    requires SlotsInv(p) && p'.slots == p.slots && p'.log == p.log + [Entry(Sentinel(|p.sentinels|), None, 0)]
    ensures SlotsInv(p')
  {
  }

  lemma SubmitSentinelKeepsSentinels(p: Pool, p': Pool)
    requires SentinelsInv(p)
    requires p'.log == p.log + [Entry(Sentinel(|p.sentinels|), None, 0)] && p'.sentinels == p.sentinels + [|p.log|]
    ensures SentinelsInv(p')
  {
    assert forall k | 0 <= k < |p.sentinels| :: p'.sentinels[k] == p.sentinels[k];
  }

  lemma StepKeepsIndex(p: Pool, e: Event)
    requires LogInv(p) && Enabled(p, e)
    ensures IndexInv(Step(p, e))
  {
    hide IndexInv, HoldersInv, ShutdownInv;
    if !e.Submit? {
      SameTasksKeepIndex(p, Step(p, e));
    } else if e.task.Work? {
      SubmitWorkKeepsIndex(p, Step(p, e), e.task.req);
    } else {
      SubmitSentinelKeepsIndex(p, Step(p, e));
    }
  }

  /** Once all five sentinels are taken, each worker holds one of them: there are as many sentinels as workers. */
  lemma EveryWorkerHoldsASentinel(p: Pool, w: nat)
    requires HoldersInv(p) && IndexInv(p)
    requires |p.sentinels| == THREAD_POOL_SIZE && p.sentinels[4] < p.head
    requires w < THREAD_POOL_SIZE
    ensures p.workers[w].Held().Some? && p.log[p.workers[w].Held().value].task.Sentinel?
  {
    var t := seq(5, k requires 0 <= k < 5 => SentinelTaker(p, k));
    forall j, k | 0 <= j < k < 5
      ensures t[j] != t[k]
    {
      assert p.workers[t[j]].Held() == Some(p.sentinels[j]) && p.workers[t[k]].Held() == Some(p.sentinels[k]);
    }
    FiveDistinctCover(t, w);
  }

  /** The worker that took a sentinel still holds it: a sentinel has no function to finish. */
  ghost function SentinelTaker(p: Pool, k: nat): (w: nat)
    requires HoldersInv(p) && IndexInv(p)
    requires k < |p.sentinels| && p.sentinels[k] < p.head
    ensures w < THREAD_POOL_SIZE && p.workers[w].Held() == Some(p.sentinels[k])
  {
    p.log[p.sentinels[k]].taker.value
  }

  lemma FiveDistinctCover(t: seq<nat>, w: nat)
    requires |t| == 5 && w < 5
    requires forall k | 0 <= k < 5 :: t[k] < 5
    requires forall j, k | 0 <= j < k < 5 :: t[j] != t[k]
    ensures w in t
  {
    assert w == t[0] || w == t[1] || w == t[2] || w == t[3] || w == t[4];
  }

  lemma TakeKeepsShutdown(p: Pool, w: nat)
    requires LogInv(p) && Enabled(p, Check(w)) && p.Todo() > 0
    ensures ShutdownInv(Step(p, Check(w)))
  {
    if |p.sentinels| == THREAD_POOL_SIZE && p.head == p.sentinels[4] + 1 {
      EveryWorkerHoldsASentinel(p, w);
      assert false;
    }
  }

  lemma StepKeepsShutdown(p: Pool, e: Event)
    requires LogInv(p) && Enabled(p, e)
    ensures ShutdownInv(Step(p, e))
  {
    hide WorkersInv, HeldInv, SlotsInv, SentinelsInv;
    if e.Check? && p.Todo() > 0 {
      TakeKeepsShutdown(p, e.w);
    } else {
      var p' := Step(p, e);
      assert p'.head == p.head;
      assert forall w | 0 <= w < |p.workers| ::
        p'.workers[w].phase.Joined? <==> p.workers[w].phase.Joined? || (e.Join? && w == p.joined);
    }
  }

  lemma StepKeepsLogInv(p: Pool, e: Event)
    requires LogInv(p) && Enabled(p, e)
    ensures LogInv(Step(p, e))
  {
    StepKeepsHolders(p, e);
    StepKeepsIndex(p, e);
    StepKeepsShutdown(p, e);
  }
}
