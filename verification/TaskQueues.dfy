// The growable, append-only task queue in its imperative form: an array with four counters.

module TaskQueues {
  import opened Common
  import opened Growth
  import opened PoolProtocol

  class TaskQueue {
    var requestQueue: array<Task>
    var head: u32
    var tail: u32
    var todoCnt: u32
    var totoalCnt: u32

    /** Every task submitted so far, in order; the tasks still to do are those from head on. */
    ghost var history: seq<Task>

    ghost predicate Valid()
      reads this, requestQueue
    {
      && tail == totoalCnt == |history|
      && head <= tail && head + todoCnt == tail
      && Covers(requestQueue.Length, tail)
      && requestQueue[..tail] == history
    }

    ghost function Contents(): seq<Task>
      reads this, requestQueue
      requires Valid()
    {
      history[head..]
    }

    constructor ()
      ensures Valid() && fresh(requestQueue) && history == [] && head == 0
    {
      requestQueue := new Task[REQ_LIST_BUFSIZE];
      head, tail, todoCnt, totoalCnt := 0, 0, 0, 0;
      history := [];
    }

    /** Appends a task. The queue grows by one page whenever its count is a multiple of the page; all tasks ever
        submitted survive the move. */
    method Submit(task: Task)
      requires Valid() && totoalCnt < MAX_SLOTS
      modifies this, requestQueue
      ensures Valid()
      ensures requestQueue == old(requestQueue) || fresh(requestQueue)
      ensures history == old(history) + [task] && head == old(head)
      ensures Contents() == old(Contents()) + [task]
    {
      if totoalCnt % REQ_LIST_BUFSIZE == 0 {
        GrowthBound(totoalCnt);
        requestQueue := Reallocated(requestQueue, totoalCnt, GrownBytes(totoalCnt) / POINTER_SIZE);
      }
      NextCovered(requestQueue.Length, totoalCnt);
      requestQueue[tail] := task;
      tail, todoCnt, totoalCnt := tail + 1, todoCnt + 1, totoalCnt + 1;
      history := history + [task];
    }

    /** Removes the oldest task still to do. */
    method Take() returns (task: Task)
      requires Valid() && todoCnt > 0
      modifies `head, `todoCnt
      ensures Valid() && history == old(history) && head == old(head) + 1
      ensures [task] + Contents() == old(Contents()) && task == history[old(head)]
    {
      task := requestQueue[head];
      head, todoCnt := head + 1, todoCnt - 1;
    }
  }
}
