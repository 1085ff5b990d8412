// thread_pool_t in its imperative form. Each method is one section of worker_thread, thread_pool_submit or
// mmap_release_all_resources, proved to be one step of the pool's state machine.

module ThreadPools {
  import opened Common
  import opened PoolProtocol
  import opened TaskQueues

  class ThreadPool {
    const taskQueue: TaskQueue
    var isRunning: bool
    var maxThreadIdx: u32
    var busyThreadNum: u32
    var idleThreadNum: u32
    var aliveThreadNum: u32

    /** The threads: where each stands in worker_thread, with its local variables. */
    var workers: seq<Worker>

    // What the C code does not record but its specification speaks of: who took which task and whether it has been run,
    // and where the tasks of requests and the sentinels are in the queue.
    var log: seq<Entry>
    var slots: map<nat, nat>
    var sentinels: seq<nat>
    var joined: nat

    function View(): Pool
      reads this, taskQueue
    {
      Pool(log, taskQueue.head, workers, slots, sentinels, isRunning, joined,
           maxThreadIdx, busyThreadNum, idleThreadNum, aliveThreadNum)
    }

    ghost function Objects(): set<object>
      reads this, taskQueue
    {
      {this, taskQueue, taskQueue.requestQueue}
    }

    ghost predicate Valid()
      reads `log, `sentinels, taskQueue, taskQueue.requestQueue
    {
      && taskQueue.Valid()
      && |log| == |taskQueue.history|
      && (forall i | 0 <= i < |log| :: log[i].task == taskQueue.history[i])
      && |sentinels| <= THREAD_POOL_SIZE && |log| - |sentinels| <= MAX_TASKS
    }

    constructor ()
      ensures Valid() && fresh(Objects()) && View() == InitialPool()
    {
      taskQueue := new TaskQueue();
      isRunning := true;
      maxThreadIdx, busyThreadNum, idleThreadNum, aliveThreadNum := 0, 0, 0, 0;
      var x := Worker(NotStarted, None);
      workers := [x, x, x, x, x];
      log, slots, sentinels, joined := [], map[], [], 0;
    }

    /** The locked section of thread_pool_submit. */
    method Submit(task: Task, wake: set<nat>)
      requires Valid() && Next(View(), Event.Submit(task, wake)).Some?
      modifies Objects()
      ensures Valid() && fresh(Objects() - old(Objects()))
      ensures Next(old(View()), Event.Submit(task, wake)) == Some(View())
    {
      taskQueue.Submit(task);
      workers := WakeWorkers(workers, wake);
      if task.Work? {
        slots := slots[task.req := |log|];
      } else {
        sentinels := sentinels + [|log|];
      }
      log := log + [Entry(task, None, 0)];
    }

    /** A new thread registers itself. */
    method Start(w: nat)
      requires Next(View(), Event.Start(w)).Some?
      modifies `workers, `maxThreadIdx, `aliveThreadNum, `idleThreadNum
      ensures Next(old(View()), Event.Start(w)) == Some(View())
    {
      workers := workers[w := Worker(Checking, Some(maxThreadIdx))];
      maxThreadIdx := Inc32(maxThreadIdx);
      aliveThreadNum := Inc32(aliveThreadNum);
      idleThreadNum := Inc32(idleThreadNum);
    }

    method SetPhase(w: nat, ph: Phase)
      requires w < |workers|
      modifies `workers
      ensures View() == old(View()).At(w, ph)
    {
      workers := workers[w := workers[w].(phase := ph)];
    }

    /** A worker under the queue's lock: it sleeps if there is nothing to do, else takes the oldest task. */
    method Check(w: nat)
      requires Valid() && Next(View(), Event.Check(w)).Some?
      modifies `workers, `log, taskQueue
      ensures Valid() && taskQueue.requestQueue == old(taskQueue.requestQueue)
      ensures Next(old(View()), Event.Check(w)) == Some(View())
    {
      if taskQueue.todoCnt == 0 {
        SetPhase(w, Asleep);
      } else {
        var i := taskQueue.head;
        var task := taskQueue.Take();
        log := log[i := log[i].(taker := Some(w))];
        SetPhase(w, Holding(i));
      }
    }

    /** A sleeping worker wakes up without a signal. */
    method Spurious(w: nat)
      requires Next(View(), Event.Spurious(w)).Some?
      modifies `workers
      ensures Next(old(View()), Event.Spurious(w)) == Some(View())
    {
      SetPhase(w, Woken);
    }

    /** A worker with a task in hand: it leaves the loop on a sentinel once the pool is closed, else counts itself busy
        and enters the task function. Says which. */
    method Begin(w: nat) returns (leaves: bool)
      requires Valid() && w < |workers| && workers[w].phase.Holding? && workers[w].phase.i < |log|
      modifies `workers, `busyThreadNum, `idleThreadNum
      ensures leaves == (!isRunning && log[old(workers)[w].phase.i].task.Sentinel?)
      ensures Next(old(View()), if leaves then Event.Exit(w) else Event.CountBusy(w)) == Some(View())
    {
      var i := workers[w].phase.i;
      leaves := !isRunning && taskQueue.requestQueue[i].Sentinel?;
      assert taskQueue.requestQueue[i] == taskQueue.requestQueue[..taskQueue.tail][i];
      if leaves {
        SetPhase(w, Exited(i));
      } else {
        busyThreadNum := Inc32(busyThreadNum);
        idleThreadNum := Dec32(idleThreadNum);
        SetPhase(w, Running(i, FirstCheck));
      }
    }

    /** A worker goes on inside its task function. */
    method Move(w: nat, stage: Stage)
      requires w < |workers| && workers[w].phase.Running?
      modifies `workers
      ensures View() == old(View()).At(w, Running(old(workers)[w].phase.i, stage))
    {
      SetPhase(w, Running(workers[w].phase.i, stage));
    }

    /** A worker back from its task function counts itself idle. */
    method CountIdle(w: nat)
      requires Valid() && Next(View(), Event.CountIdle(w)).Some?
      modifies `workers, `log, `busyThreadNum, `idleThreadNum
      ensures Valid() && Next(old(View()), Event.CountIdle(w)) == Some(View())
    {
      var i := workers[w].phase.i;
      log := log[i := log[i].(runs := log[i].runs + 1)];
      busyThreadNum := Dec32(busyThreadNum);
      idleThreadNum := Inc32(idleThreadNum);
      SetPhase(w, Checking);
    }

    method Close()
      requires Next(View(), Event.Close).Some?
      modifies `isRunning
      ensures Next(old(View()), Event.Close) == Some(View())
    {
      isRunning := false;
    }

    /** pthread_join of the next thread, which has exited, and its removal from the counts. */
    method Join()
      requires Next(View(), Event.Join).Some?
      modifies `workers, `idleThreadNum, `aliveThreadNum, `joined
      ensures Next(old(View()), Event.Join) == Some(View())
    {
      SetPhase(joined, Joined(workers[joined].phase.i));
      idleThreadNum := Dec32(idleThreadNum);
      aliveThreadNum := Dec32(aliveThreadNum);
      joined := joined + 1;
    }

    /** Takes an enabled step, whatever it is. */
    method Perform(e: Event)
      requires Valid() && Next(View(), e).Some?
      modifies Objects()
      ensures Valid() && fresh(Objects() - old(Objects()))
      ensures Next(old(View()), e) == Some(View())
    {
      if e.Submit? {
        Submit(e.task, e.wake);
      } else if e.Start? {
        Start(e.w);
      } else if e.Check? {
        Check(e.w);
      } else if e.Spurious? {
        Spurious(e.w);
      } else if e.Exit? || e.CountBusy? {
        var leaves := Begin(e.w);
      } else if e.Move? {
        Move(e.w, e.stage);
      } else if e.CountIdle? {
        CountIdle(e.w);
      } else if e.Close? {
        Close();
      } else {
        Join();
      }
    }
  }
}
