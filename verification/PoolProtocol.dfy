// The thread pool of the mmap accessor as a state machine: one step per section that the C code runs under
// task_queue.lock or info.lock, or alone in its thread.

module PoolProtocol {
  import opened Common
  import Growth

  const THREAD_POOL_SIZE: nat := 5

  /** Ordinary tasks the queue has room for when the five sentinels of shutdown must still fit. */
  const MAX_TASKS: nat := Growth.MAX_SLOTS - THREAD_POOL_SIZE

  /** A task: the request it works on, or one of the sentinels, numbered in the order they are sent. */
  datatype Task = Work(req: nat) | Sentinel(nth: nat)

  /** One slot of request_queue. The queue never forgets a task, so we also keep who took it and how many times its
      function has been run to the end. */
  datatype Entry = Entry(task: Task, taker: Option<nat>, runs: nat)

  /** Where a worker stands inside mmapRead or mmapWrite. tmp is the worker's own read mapping (mmapAddr). */
  datatype Stage =
    | FirstCheck
    | Mapping(fails: nat)
    | Copying(addr: nat)
    | Syncing
    | Publishing(ok: bool, tmp: Option<nat>)
    | Cleaning(tmp: Option<nat>)
    | Returning

  /** Where a worker stands inside worker_thread. Woken is "signalled but not yet holding the lock again". */
  datatype Phase =
    | NotStarted
    | Checking
    | Asleep
    | Woken
    | Holding(i: nat)
    | Running(i: nat, stage: Stage)
    | Exited(i: nat)
    | Joined(i: nat)

  datatype Worker = Worker(phase: Phase, idx: Option<u32>) {
    /** The index in the queue of the task this worker took last and has not finished. */
    function Held(): Option<nat> {
      match phase
      case Holding(i) => Some(i)
      case Running(i, _) => Some(i)
      case Exited(i) => Some(i)
      case Joined(i) => Some(i)
      case _ => None
    }
  }

  datatype Pool = Pool(
    log: seq<Entry>,        // request_queue[0..tail]
    head: nat,
    workers: seq<Worker>,
    slots: map<nat, nat>,   // request -> its index in log
    sentinels: seq<nat>,    // indices in log of the sentinels sent so far
    isRunning: bool,
    joined: nat,
    maxIdx: u32,
    busy: u32,
    idle: u32,
    alive: u32)
  {
    function Todo(): int {
      |log| - head
    }

    function At(w: nat, ph: Phase): Pool
      requires w < |workers|
    {
      this.(workers := workers[w := workers[w].(phase := ph)])
    }
  }

  predicate IsAsleep(x: Worker) { x.phase.Asleep? }

  function Sleepers(ws: seq<Worker>): set<nat> {
    set w: nat | w < |ws| && IsAsleep(ws[w])
  }

  /** pthread_cond_signal unblocks at least one of the threads blocked on the condition, if there are any. */
  predicate SignalOk(ws: seq<Worker>, wake: set<nat>) {
    wake <= Sleepers(ws) && (Sleepers(ws) != {} ==> wake != {})
  }

  function WakeWorkers(ws: seq<Worker>, wake: set<nat>): (r: seq<Worker>)
    ensures |r| == |ws|
  {
    seq(|ws|, w requires 0 <= w < |ws| =>
      if w in wake && IsAsleep(ws[w]) then ws[w].(phase := Woken) else ws[w])
  }

  datatype Event =
    | Submit(task: Task, wake: set<nat>)
    | Start(w: nat)
    | Check(w: nat)
    | Spurious(w: nat)
    | Exit(w: nat)
    | CountBusy(w: nat)
    | Move(w: nat, stage: Stage)
    | CountIdle(w: nat)
    | Close
    | Join

  /** Steps still ahead of a worker inside the task function. */
  function StageWeight(st: Stage): nat {
    match st
    case FirstCheck => 9
    case Mapping(k) => if k <= MAX_RETRY_TIMES then 8 - k else 5
    case Copying(_) => 5
    case Syncing => 5
    case Publishing(_, _) => 4
    case Cleaning(_) => 3
    case Returning => 0
  }

  predicate Enabled(p: Pool, e: Event) {
    match e
    case Submit(Work(r), wake) =>
      r !in p.slots && |p.log| - |p.sentinels| < MAX_TASKS && SignalOk(p.workers, wake)
    case Submit(Sentinel(k), wake) =>
      !p.isRunning && k == |p.sentinels| && k < THREAD_POOL_SIZE && SignalOk(p.workers, wake)
    case Start(w) => w < |p.workers| && p.workers[w].phase.NotStarted?
    case Check(w) => w < |p.workers| && (p.workers[w].phase.Checking? || p.workers[w].phase.Woken?) && p.head <= |p.log|
    case Spurious(w) => w < |p.workers| && p.workers[w].phase.Asleep?
    case Exit(w) =>
      && w < |p.workers| && p.workers[w].phase.Holding? && p.workers[w].phase.i < |p.log|
      && !p.isRunning && p.log[p.workers[w].phase.i].task.Sentinel?
    case CountBusy(w) =>
      && w < |p.workers| && p.workers[w].phase.Holding? && p.workers[w].phase.i < |p.log|
      && !(!p.isRunning && p.log[p.workers[w].phase.i].task.Sentinel?)
    case Move(w, stage) =>
      && w < |p.workers| && p.workers[w].phase.Running?
      && StageWeight(stage) < StageWeight(p.workers[w].phase.stage)
    case CountIdle(w) =>
      && w < |p.workers| && p.workers[w].phase.Running? && p.workers[w].phase.stage.Returning?
      && p.workers[w].phase.i < |p.log|
    case Close => p.isRunning && |p.log| > 0
    case Join =>
      && |p.sentinels| == THREAD_POOL_SIZE && p.joined < THREAD_POOL_SIZE
      && p.joined < |p.workers| && p.workers[p.joined].phase.Exited?
  }

  function Step(p: Pool, e: Event): Pool
    requires Enabled(p, e)
  {
    match e
    case Submit(task, wake) =>
      var i := |p.log|;
      p.(log := p.log + [Entry(task, None, 0)],
         workers := WakeWorkers(p.workers, wake),
         slots := if task.Work? then p.slots[task.req := i] else p.slots,
         sentinels := if task.Work? then p.sentinels else p.sentinels + [i])
    case Start(w) =>
      p.(workers := p.workers[w := Worker(Checking, Some(p.maxIdx))],
         maxIdx := Inc32(p.maxIdx), alive := Inc32(p.alive), idle := Inc32(p.idle))
    case Check(w) =>
      if p.Todo() == 0 then
        p.At(w, Asleep)
      else
        p.At(w, Holding(p.head)).(log := p.log[p.head := p.log[p.head].(taker := Some(w))], head := p.head + 1)
    case Spurious(w) => p.At(w, Woken)
    case Exit(w) => p.At(w, Exited(p.workers[w].phase.i))
    case CountBusy(w) =>
      p.At(w, Running(p.workers[w].phase.i, FirstCheck)).(busy := Inc32(p.busy), idle := Dec32(p.idle))
    case Move(w, stage) => p.At(w, Running(p.workers[w].phase.i, stage))
    case CountIdle(w) =>
      var i := p.workers[w].phase.i;
      p.At(w, Checking).(log := p.log[i := p.log[i].(runs := p.log[i].runs + 1)],
                         busy := Dec32(p.busy), idle := Inc32(p.idle))
    case Close => p.(isRunning := false)
    case Join =>
      p.At(p.joined, Joined(p.workers[p.joined].phase.i)).(joined := p.joined + 1,
                                                           idle := Dec32(p.idle), alive := Dec32(p.alive))
  }

  function Next(p: Pool, e: Event): Option<Pool> {
    if Enabled(p, e) then Some(Step(p, e)) else None
  }

  /** The accessor after thread_pool_init: five threads created, none of them running yet. */
  function InitialPool(): Pool {
    var x := Worker(NotStarted, None);
    Pool([], 0, [x, x, x, x, x], map[], [], true, 0, 0, 0, 0, 0)
  }
}
