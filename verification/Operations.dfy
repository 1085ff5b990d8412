// The operations of the mmap accessor in their imperative form, each run by a thread that the others interrupt wherever
// the C code holds no lock.

module Operations {
  import opened Common
  import P = PoolProtocol
  import Shutdown
  import opened Lifecycle
  import opened RequestInvariants
  import opened Runs
  import opened Release
  import opened Resources
  import opened Statuses
  import opened Outcomes
  import opened Waiters
  import opened MmapAccessors
  import opened Schedules
  import opened Traces

  // ---------------------------------------------------------------- what other threads leave alone

  /** What no step takes back: submitted tasks, requests, puts that have returned and the final status of those. */
  ghost predicate Onward(s: State, s': State) {
    && |s'.waiters| == |s.waiters|
    && |s.pool.log| <= |s'.pool.log| && (forall i | 0 <= i < |s.pool.log| :: s'.pool.log[i].task == s.pool.log[i].task)
    && |s.reqs| <= |s'.reqs|
    && (forall r | 0 <= r < |s.reqs| && s.reqs[r].put.Put? :: s'.reqs[r].put.Put?)
    && (forall r | 0 <= r < |s.reqs| && s.reqs[r].put.Put? && s.reqs[r].status.Final() ::
          s'.reqs[r].status == s.reqs[r].status)
  }

  lemma LogOnward(s: State, e: Event)
    requires Enabled(s, e)
    ensures |s.pool.log| <= |Step(s, e).pool.log|
    ensures forall i | 0 <= i < |s.pool.log| :: Step(s, e).pool.log[i].task == s.pool.log[i].task
  {
    if PoolPart(s, e).Some? {
      TasksAfterStep(s.pool, PoolPart(s, e).value);
    }
  }

  lemma PutOnward(s: State, e: Event, r: nat)
    requires Core(s) && Enabled(s, e) && r < |s.reqs| && s.reqs[r].put.Put?
    ensures r < |Step(s, e).reqs| && Step(s, e).reqs[r].put.Put?
    ensures s.reqs[r].status.Final() ==> Step(s, e).reqs[r].status == s.reqs[r].status
  {
    RequestAfterStep(s, e, r);
    ReturnedStep(s, e, r);
    if s.reqs[r].status.Final() {
      EndedStays(s, e, r);
    }
  }

  lemma WaitersOnward(s: State, e: Event)
    requires Enabled(s, e)
    ensures |Step(s, e).waiters| == |s.waiters|
  {
  }

  lemma StepIsOnward(s: State, e: Event)
    requires Core(s) && Enabled(s, e)
    ensures Onward(s, Step(s, e))
  {
    LogOnward(s, e);
    WaitersOnward(s, e);
    AcceptedAfterStep(s, e);
    forall r | 0 <= r < |s.reqs| && s.reqs[r].put.Put?
      ensures Step(s, e).reqs[r].put.Put?
      ensures s.reqs[r].status.Final() ==> Step(s, e).reqs[r].status == s.reqs[r].status
    {
      PutOnward(s, e, r);
    }
  }

  lemma OnwardInRun(ss: seq<State>, es: seq<Event>, k: nat)
    requires IsRun(ss, es) && k < |es|
    ensures Onward(ss[k], ss[k + 1])
  {
    InvThroughoutRun(ss, es, k);
    assert StepAt(ss, es, k);
    StepIsOnward(ss[k], es[k]);
  }

  lemma OnwardOn(a: State, b: State, c: State)
    requires Onward(a, b) && Onward(b, c)
    ensures Onward(a, c)
  {
  }

  lemma {:induction false} RunIsOnward(ss: seq<State>, es: seq<Event>, from: nat, to: nat)
    requires IsRun(ss, es) && from <= to <= |es|
    ensures Onward(ss[from], ss[to])
  {
    if from < to {
      RunIsOnward(ss, es, from, to - 1);
      OnwardInRun(ss, es, to - 1);
      OnwardOn(ss[from], ss[to - 1], ss[to]);
    }
  }

  // ---------------------------------------------------------------- waiting

  /** A waiting thread stays where it is until it moves itself; others can only wake it up. */
  lemma WaiterStaysOn(s: State, e: Event, t: nat)
    requires Enabled(s, e) && t < |s.waiters| && !Own(Waiting(t), e)
    ensures |Step(s, e).waiters| == |s.waiters|
    ensures var x, x' := s.waiters[t].phase, Step(s, e).waiters[t].phase;
            x' == x || (x.Blocked? && x' == AtLock(x.r))
    ensures var x, x' := s.waiters[t].timer, Step(s, e).waiters[t].timer;
            x' == x || (x == Armed && x' == Fired && e.TimerFire? && e.t == t)
  {
  }

  lemma {:induction false} WaiterStaysInRun(ss: seq<State>, es: seq<Event>, from: nat, to: nat, t: nat)
    requires IsRun(ss, es) && from <= to <= |es| && t < |ss[from].waiters|
    requires forall k | from <= k < to :: !Own(Waiting(t), es[k])
    ensures |ss[to].waiters| == |ss[from].waiters|
    ensures var x, x' := ss[from].waiters[t].phase, ss[to].waiters[t].phase;
            x' == x || (x.Blocked? && x' == AtLock(x.r))
    ensures var x, x' := ss[from].waiters[t].timer, ss[to].waiters[t].timer; x' == x || (x == Armed && x' == Fired)
  {
    if from < to {
      WaiterStaysInRun(ss, es, from, to - 1, t);
      assert StepAt(ss, es, to - 1);
      WaiterStaysOn(ss[to - 1], es[to - 1], t);
    }
  }

  /** The request's put has returned and its status is final. */
  ghost predicate Done(s: State, r: nat) {
    r < |s.reqs| && s.reqs[r].put.Put? && s.reqs[r].status.Final()
  }

  ghost predicate PutIn(s: State, r: nat) {
    r < |s.reqs| && s.reqs[r].put.Put?
  }

  lemma BeginsWait(s: State, t: nat, r: nat, timed: bool)
    requires t < |s.waiters| && s.waiters[t].phase.Outside? && r < |s.reqs|
    ensures Next(s, WaitBegin(t, r, timed)).Some?
    ensures Next(s, WaitBegin(t, r, timed)).value.waiters ==
            s.waiters[t := Waiter(AtLock(r), if timed then Armed else NoTimer)]
  {
  }

  lemma PutIsDecided(s: State, r: nat)
    requires Core(s) && PutIn(s, r) && s.reqs[r].status != Submitted
    ensures Done(s, r)
  {
    assert RequestOk(s.reqs[r], PlaceIn(s, r));
    assert StatusOk(s.reqs[r], PlaceIn(s, r));
  }

  lemma ChecksWait(s: State, t: nat, r: nat)
    requires t < |s.waiters| && s.waiters[t].phase == AtLock(r) && r < |s.reqs|
    ensures Next(s, WaitCheck(t)).Some?
    ensures var s' := Next(s, WaitCheck(t)).value;
            && |s'.waiters| == |s.waiters| && s'.reqs == s.reqs
            && s'.waiters[t].phase == (if s.reqs[r].status == Submitted then Blocked(r) else Leaving(r))
  {
  }

  lemma EndsWait(s: State, t: nat)
    requires t < |s.waiters| && s.waiters[t].phase.Leaving?
    ensures Next(s, WaitEnd(t)).Some?
    ensures Next(s, WaitEnd(t)).value.waiters == s.waiters[t := Waiter(Outside, NoTimer)]
    ensures Next(s, WaitEnd(t)).value.reqs == s.reqs
  {
  }

  /** What a run since some earlier state cannot have taken back. */
  lemma Since(acc: MmapAccessor, from: nat)
    requires acc.Run().Some? && from <= |acc.steps|
    ensures |acc.states| == |acc.steps| + 1 && acc.states[|acc.steps|] == acc.View() && IsRun(acc.states, acc.steps)
    ensures Onward(acc.states[from], acc.View()) && Inv(acc.View())
  {
    RunIsOnward(acc.states, acc.steps, from, |acc.steps|);
    InvThroughoutRun(acc.states, acc.steps, |acc.steps|);
  }

  lemma DoneStays(s: State, s': State, r: nat)
    requires Onward(s, s')
    ensures PutIn(s, r) ==> PutIn(s', r)
    ensures Done(s, r) ==> Done(s', r) && s'.reqs[r].status == s.reqs[r].status
  {
  }

  /** A timeout ends SUBMITTED, and so the request whose put had returned. */
  lemma TimeoutEnds(s: State, e: Event, t: nat, r: nat)
    requires Core(s) && Enabled(s, e) && e.TimerFire? && e.t == t && s.waiters[t].On(r) && PutIn(s, r)
    ensures Done(Step(s, e), r)
  {
    hide Lifecycle.Step;
    RequestAfterStep(s, e, r);
    TimerEffect(s, e, r);
    ReturnedStep(s, e, r);
    if s.reqs[r].status != Submitted {
      PutIsDecided(s, r);
    }
  }

  lemma {:induction false} FiredMeansDone(ss: seq<State>, es: seq<Event>, from: nat, to: nat, t: nat, r: nat)
    requires IsRun(ss, es) && from <= to <= |es| && t < |ss[from].waiters| && ss[from].waiters[t].On(r)
    requires forall k | from <= k < to :: !Own(Waiting(t), es[k])
    requires PutIn(ss[from], r) && (ss[from].waiters[t].timer == Fired ==> Done(ss[from], r))
    ensures t < |ss[to].waiters| && (ss[to].waiters[t].timer == Fired ==> Done(ss[to], r))
  {
    hide Core, Lifecycle.Enabled, Lifecycle.Step, Onward, Done, PutIn;
    if from < to {
      FiredMeansDone(ss, es, from, to - 1, t, r);
      WaiterStaysInRun(ss, es, from, to - 1, t);
      RunIsOnward(ss, es, from, to - 1);
      DoneStays(ss[from], ss[to - 1], r);
      InvThroughoutRun(ss, es, to - 1);
      assert StepAt(ss, es, to - 1);
      WaiterStaysOn(ss[to - 1], es[to - 1], t);
      OnwardInRun(ss, es, to - 1);
      DoneStays(ss[to - 1], ss[to], r);
      if ss[to - 1].waiters[t].timer != Fired && ss[to].waiters[t].timer == Fired {
        TimeoutEnds(ss[to - 1], es[to - 1], t, r);
      }
    }
  }

  /** The timeout thread of a blocked thread can act: it ends SUBMITTED and wakes the thread. */
  ghost predicate TimerCanFire(s: State, t: nat, r: nat) {
    var e := TimerFire(t, BlockedThreads(s.waiters, r));
    && Next(s, e).Some?
    && var s' := Next(s, e).value;
    && r < |s'.reqs| && s'.reqs[r].status != Submitted
    && t < |s'.waiters| && s'.waiters[t].phase == AtLock(r)
  }

  lemma ArmedCanFire(s: State, t: nat, r: nat)
    requires t < |s.waiters| && s.waiters[t] == Waiter(Blocked(r), Armed) && r < |s.reqs|
    ensures TimerCanFire(s, t, r)
  {
    assert t in BlockedThreads(s.waiters, r);
  }

  /** The moves of a wait of thread t for request r: it begins once, timed or not as it was asked to, looks again and again,
      and ends if it does end; in between the others run. */
  ghost predicate WaitMoves(moves: seq<Move<Event>>, t: nat, r: nat, timed: bool, done: bool) {
    && |moves| > 0 && moves[0] == Act(WaitBegin(t, r, timed))
    && (forall i | 0 < i < |moves| && moves[i].Act? :: moves[i].e == WaitCheck(t) || (done && i == |moves| - 1))
    && (done ==> |moves| > 1 && moves[|moves| - 1] == Act(WaitEnd(t)))
  }

  lemma WaitMovesOn(moves: seq<Move<Event>>, t: nat, r: nat, timed: bool, m: Move<Event>)
    requires WaitMoves(moves, t, r, timed, false)
    ensures m.Others? || m == Act(WaitCheck(t)) ==> WaitMoves(moves + [m], t, r, timed, false)
    ensures m == Act(WaitEnd(t)) ==> WaitMoves(moves + [m], t, r, timed, true)
    ensures OthersOf(moves + [m]) == OthersOf(moves) + if m.Act? then [] else [m.segment]
  {
    OneMove(moves, m);
  }

  /** Thread t is inside a wait for request r, and has been since state s0. */
  ghost predicate Waits(s0: State, s: State, t: nat, r: nat, timed: bool) {
    && Onward(s0, s) && t < |s.waiters| && s.waiters[t].On(r) && (s.waiters[t].timer == NoTimer <==> !timed)
    && (PutIn(s0, r) ==> PutIn(s, r) && (s.waiters[t].timer == Fired ==> Done(s, r)))
  }

  lemma WaitsOn(ss: seq<State>, es: seq<Event>, at: nat, s0: State, t: nat, r: nat, timed: bool)
    requires IsRun(ss, es) && at <= |es| && Waits(s0, ss[at], t, r, timed)
    requires forall k | at <= k < |es| :: !Own(Waiting(t), es[k])
    ensures Waits(s0, ss[|es|], t, r, timed) && t < |ss[at].waiters| && t < |ss[|es|].waiters|
    ensures var x, x' := ss[at].waiters[t].phase, ss[|es|].waiters[t].phase; x' == x || (x.Blocked? && x' == AtLock(x.r))
  {
    hide Done, PutIn, Onward;
    WaiterStaysInRun(ss, es, at, |es|, t);
    RunIsOnward(ss, es, at, |es|);
    OnwardOn(s0, ss[at], ss[|es|]);
    DoneStays(s0, ss[|es|], r);
    if PutIn(s0, r) {
      FiredMeansDone(ss, es, at, |es|, t, r);
    }
  }

  /** Thread t goes to wait for request r. */
  method Enter(acc: MmapAccessor, t: nat, r: nat, timed: bool) returns (ghost moves: seq<Move<Event>>)
    requires acc.Run().Some? && t < |acc.waiters| && acc.waiters[t].phase.Outside? && r < |acc.reqs|
    modifies acc.Repr
    ensures RanOn(acc) && t < |acc.waiters| && acc.waiters[t].phase == AtLock(r) && |old(acc.reqs)| <= |acc.reqs|
    ensures Waits(old(acc.View()), acc.View(), t, r, timed)
    ensures TracedFrom(acc.states, acc.steps, |old(acc.steps)|, moves, Player(Waiting(t)))
    ensures WaitMoves(moves, t, r, timed, false) && OthersOf(moves) == []
  {
    hide TracedFrom, WaitMoves, OthersOf, Onward, Done, PutIn, MmapAccessor.Run, Inv, Lifecycle.IsRun;
    ghost var from, s := |acc.steps|, acc.View();
    RunLength(acc);
    NothingYet(acc.states, acc.steps, Player(Waiting(t)));
    BeginsWait(s, t, r, timed);
    Take(acc, WaitBegin(t, r, timed), Waiting(t), from, []);
    Since(acc, from);
    DoneStays(s, acc.View(), r);
    moves := [Act(WaitBegin(t, r, timed))];
    assert [] + moves == moves;
    JustEntered(moves, t, r, timed);
  }

  lemma JustEntered(moves: seq<Move<Event>>, t: nat, r: nat, timed: bool)
    requires moves == [Act(WaitBegin(t, r, timed))]
    ensures WaitMoves(moves, t, r, timed, false) && OthersOf(moves) == []
  {
    assert moves[..0] == [];
  }

  /** The other threads run while t holds no lock. */
  method Pause(acc: MmapAccessor, t: nat, r: nat, timed: bool, es: seq<Event>, ghost s0: State, ghost from: nat,
               ghost moves: seq<Move<Event>>)
    requires acc.Run().Some? && Waits(s0, acc.View(), t, r, timed) && t < |acc.waiters| && !acc.waiters[t].phase.Leaving?
    requires TracedFrom(acc.states, acc.steps, from, moves, Player(Waiting(t))) && WaitMoves(moves, t, r, timed, false)
    modifies acc.Repr
    ensures RanOn(acc) && t < |acc.waiters| && |old(acc.reqs)| <= |acc.reqs|
    ensures acc.waiters[t].phase == AtLock(r) || acc.waiters[t].phase == Blocked(r)
    ensures Waits(s0, acc.View(), t, r, timed)
    ensures TracedFrom(acc.states, acc.steps, from, moves + [Others(es)], Player(Waiting(t)))
    ensures WaitMoves(moves + [Others(es)], t, r, timed, false) && OthersOf(moves + [Others(es)]) == OthersOf(moves) + [es]
  {
    hide TracedFrom, WaitMoves, OthersOf, Onward, Done, PutIn;
    ghost var at := |acc.steps|;
    RunLength(acc);
    LetRun(acc, Waiting(t), es, from, moves);
    Since(acc, at);
    MoreRequests(acc.states[at], acc.View());
    WaitsOn(acc.states, acc.steps, at, s0, t, r, timed);
    WaitMovesOn(moves, t, r, timed, Others(es));
  }

  lemma MoreRequests(s: State, s': State)
    requires Onward(s, s')
    ensures |s.reqs| <= |s'.reqs|
  {
  }

  /** Some step from the given one on is a look of thread t at request r that ends its wait. */
  ghost predicate Left(ss: seq<State>, es: seq<Event>, from: nat, t: nat, r: nat) {
    |ss| == |es| + 1 && exists j: nat {:trigger LeavesAt(ss, es, j, t, r)} :: from <= j < |es| && LeavesAt(ss, es, j, t, r)
  }

  lemma LeftStays(ss: seq<State>, es: seq<Event>, ss': seq<State>, es': seq<Event>, at: nat, from: nat, t: nat, r: nat)
    requires Left(ss, es, at, t, r) && from <= at && |ss'| == |es'| + 1 && ss <= ss' && es <= es'
    ensures Left(ss', es', from, t, r)
  {
    var j: nat :| at <= j < |es| && LeavesAt(ss, es, j, t, r);
    assert es'[j] == es[j] && ss'[j] == ss[j];
    assert LeavesAt(ss', es', j, t, r);
  }

  /** Thread t takes the lock of request r and looks at its status. */
  method Look(acc: MmapAccessor, t: nat, r: nat, timed: bool, ghost s0: State, ghost from: nat,
              ghost moves: seq<Move<Event>>)
    requires acc.Run().Some? && Waits(s0, acc.View(), t, r, timed)
    requires t < |acc.waiters| && acc.waiters[t].phase == AtLock(r) && r < |acc.reqs| && from <= |acc.steps|
    requires TracedFrom(acc.states, acc.steps, from, moves, Player(Waiting(t))) && WaitMoves(moves, t, r, timed, false)
    modifies acc.Repr
    ensures RanOn(acc) && t < |acc.waiters| && |old(acc.reqs)| <= |acc.reqs|
    ensures acc.waiters[t].phase == Blocked(r) || acc.waiters[t].phase == Leaving(r)
    ensures Waits(s0, acc.View(), t, r, timed)
    ensures acc.waiters[t].phase.Leaving? ==>
              Left(acc.states, acc.steps, from, t, r) && (PutIn(s0, r) ==> Done(acc.View(), r))
    ensures TracedFrom(acc.states, acc.steps, from, moves + [Act(WaitCheck(t))], Player(Waiting(t)))
    ensures WaitMoves(moves + [Act(WaitCheck(t))], t, r, timed, false)
    ensures OthersOf(moves + [Act(WaitCheck(t))]) == OthersOf(moves)
  {
    hide TracedFrom, WaitMoves, OthersOf, Onward, MmapAccessor.Run, Lifecycle.IsRun;
    ghost var at := |acc.steps|;
    ghost var s := acc.View();
    RunLength(acc);
    ChecksWait(s, t, r);
    Take(acc, WaitCheck(t), Waiting(t), from, moves);
    Since(acc, at);
    OnwardOn(s0, s, acc.View());
    DoneStays(s, acc.View(), r);
    if acc.waiters[t].phase.Leaving? {
      assert LeavesAt(acc.states, acc.steps, at, t, r);
      if PutIn(s, r) {
        PutIsDecided(acc.View(), r);
      }
    }
    WaitMovesOn(moves, t, r, timed, Act(WaitCheck(t)));
  }

  /** Thread t has seen the end of its wait. */
  method Leave(acc: MmapAccessor, t: nat, r: nat, timed: bool, ghost s0: State, ghost from: nat,
               ghost moves: seq<Move<Event>>)
    requires acc.Run().Some? && Waits(s0, acc.View(), t, r, timed) && t < |acc.waiters| && acc.waiters[t].phase.Leaving?
    requires TracedFrom(acc.states, acc.steps, from, moves, Player(Waiting(t))) && WaitMoves(moves, t, r, timed, false)
    requires Left(acc.states, acc.steps, from, t, r) && (PutIn(s0, r) ==> Done(acc.View(), r))
    modifies acc.Repr
    ensures RanOn(acc) && Onward(s0, acc.View()) && t < |acc.waiters| && |old(acc.reqs)| <= |acc.reqs|
    ensures acc.waiters[t].phase.Outside?
    ensures Left(acc.states, acc.steps, from, t, r) && (PutIn(s0, r) ==> Done(acc.View(), r))
    ensures TracedFrom(acc.states, acc.steps, from, moves + [Act(WaitEnd(t))], Player(Waiting(t)))
    ensures WaitMoves(moves + [Act(WaitEnd(t))], t, r, timed, true)
    ensures OthersOf(moves + [Act(WaitEnd(t))]) == OthersOf(moves)
  {
    hide TracedFrom, WaitMoves, OthersOf, Onward, Left, Done, PutIn;
    ghost var at, s, ss, es := |acc.steps|, acc.View(), acc.states, acc.steps;
    EndsWait(s, t);
    Take(acc, WaitEnd(t), Waiting(t), from, moves);
    Since(acc, at);
    OnwardOn(s0, s, acc.View());
    DoneStays(s, acc.View(), r);
    LeftStays(ss, es, acc.states, acc.steps, from, from, t, r);
    WaitMovesOn(moves, t, r, timed, Act(WaitEnd(t)));
  }

  /** The waiting loop of mmap_wait_request and mmap_wait_all_requests, for one request. The schedule says what happens
      at each point where thread t does not hold the lock; when it ends, t may still be blocked. */
  method WaitFor(acc: MmapAccessor, t: nat, r: nat, timed: bool, schedule: seq<seq<Event>>, start: nat)
    returns (done: bool, next: nat, ghost moves: seq<Move<Event>>)
    requires acc.Run().Some? && t < |acc.waiters| && acc.waiters[t].phase.Outside? && r < |acc.reqs|
    requires start <= |schedule|
    modifies acc.Repr
    ensures RanOn(acc) && Onward(old(acc.View()), acc.View()) && t < |acc.waiters| && |old(acc.reqs)| <= |acc.reqs|
    ensures start <= next <= |schedule|
    ensures if done then acc.waiters[t].phase.Outside? && (PutIn(old(acc.View()), r) ==> Done(acc.View(), r))
            else acc.waiters[t].phase == Blocked(r) && next == |schedule| && Waits(old(acc.View()), acc.View(), t, r, timed)
    ensures done ==> Left(acc.states, acc.steps, |old(acc.steps)|, t, r)
    ensures TracedFrom(acc.states, acc.steps, |old(acc.steps)|, moves, Player(Waiting(t)))
    ensures WaitMoves(moves, t, r, timed, done) && OthersOf(moves) == schedule[start..next]
  {
    hide MmapAccessor.Run, MmapAccessor.View, Waits, Onward, Left, TracedFrom, WaitMoves, OthersOf, Done, PutIn;
    ghost var s, from := acc.View(), |acc.steps|;
    moves := Enter(acc, t, r, timed);
    next := start;
    while !acc.waiters[t].phase.Leaving?
      invariant RanOn(acc) && Waits(s, acc.View(), t, r, timed) && start <= next <= |schedule|
      invariant t < |acc.waiters| && |old(acc.reqs)| <= |acc.reqs|
      invariant acc.waiters[t].phase == AtLock(r) || acc.waiters[t].phase == Blocked(r) || acc.waiters[t].phase == Leaving(r)
      invariant acc.waiters[t].phase.Leaving? ==>
                  Left(acc.states, acc.steps, from, t, r) && (PutIn(s, r) ==> Done(acc.View(), r))
      invariant TracedFrom(acc.states, acc.steps, from, moves, Player(Waiting(t)))
      invariant WaitMoves(moves, t, r, timed, false) && OthersOf(moves) == schedule[start..next]
      decreases |schedule| - next, if acc.waiters[t].phase == AtLock(r) then 1 else 0
    {
      if next < |schedule| {
        Pause(acc, t, r, timed, schedule[next], s, from, moves);
        moves := moves + [Others(schedule[next])];
        next := next + 1;
      } else if acc.waiters[t].phase.Blocked? {
        WaitsOnward(s, acc.View(), t, r, timed);
        return false, next, moves;
      }
      if acc.waiters[t].phase.AtLock? {
        Look(acc, t, r, timed, s, from, moves);
        moves := moves + [Act(WaitCheck(t))];
      }
    }
    Leave(acc, t, r, timed, s, from, moves);
    moves := moves + [Act(WaitEnd(t))];
    done := true;
  }

  lemma WaitsOnward(s0: State, s: State, t: nat, r: nat, timed: bool)
    requires Waits(s0, s, t, r, timed)
    ensures Onward(s0, s) && t < |s.waiters| && (s.waiters[t].timer == NoTimer <==> !timed)
    ensures PutIn(s0, r) && s.waiters[t].timer == Fired ==> Done(s, r)
  {
  }

  /** A thread still blocked waits for a request that is still SUBMITTED, if no other thread waits for the same one; if
      moreover the run is timely, the worker's verdict is still to come. */
  lemma StillSubmitted(acc: MmapAccessor, t: nat, r: nat)
    requires acc.Run().Some? && SoleRun(acc.states, acc.steps)
    requires t < |acc.waiters| && acc.waiters[t].phase == Blocked(r) && r < |acc.reqs|
    ensures acc.reqs[r].status == Submitted
    ensures TimelyRun(acc.states, acc.steps) ==> PlaceIn(acc.View(), r).Unpublished()
  {
    SoleRunsForgetNobody(acc.states, acc.steps, |acc.steps|);
    assert acc.View().waiters[t].phase == Blocked(r);
    assert acc.View().reqs[r].status == acc.reqs[r].status;
    if TimelyRun(acc.states, acc.steps) {
      SubmittedIsUnpublished(acc.states, acc.steps, |acc.steps|, r);
    }
  }

  /** A step of the waiting thread's own writes no request. */
  lemma WaitStepWritesNothing(s: State, e: Event, t: nat)
    requires Enabled(s, e) && Own(Waiting(t), e)
    ensures Step(s, e).reqs == s.reqs
  {
    assert Step(s, e).reqs == RequestsStep(s, e);
  }

  ghost predicate InSchedule(schedule: seq<seq<Event>>, e: Event) {
    exists segment {:trigger segment in schedule} | segment in schedule :: e in segment
  }

  /** From the given step on, the requests change only by steps that the schedule provides. */
  ghost predicate OnlyOthersWrite(ss: seq<State>, es: seq<Event>, from: nat, schedule: seq<seq<Event>>) {
    && |ss| == |es| + 1
    && forall k | from <= k < |es| :: ss[k + 1].reqs == ss[k].reqs || InSchedule(schedule, es[k])
  }

  /** All acts among the moves are of thread t's waits, and none of the waits is timed unless that was asked for. */
  ghost predicate WaitsOnly(moves: seq<Move<Event>>, t: nat, timed: bool) {
    forall i | 0 <= i < |moves| && moves[i].Act? ::
      Own(Waiting(t), moves[i].e) && (moves[i].e.WaitBegin? ==> moves[i].e.timed == timed)
  }

  lemma WaitWritesNothing(acc: MmapAccessor, from: nat, t: nat, timed: bool, moves: seq<Move<Event>>,
                          schedule: seq<seq<Event>>)
    requires acc.Run().Some? && TracedFrom(acc.states, acc.steps, from, moves, Player(Waiting(t)))
    requires WaitsOnly(moves, t, timed) && OthersOf(moves) <= schedule
    ensures OnlyOthersWrite(acc.states, acc.steps, from, schedule)
  {
    hide OthersOf, Lifecycle.Enabled, Lifecycle.Step, Onward, Inv;
    Since(acc, from);
    forall s, segment, e | e in Player(Waiting(t))(s, segment)
      ensures e in segment
    {
      PlayedIsOthers(s, Waiting(t), segment);
    }
    AllAccounted(acc.states, acc.steps, from, |acc.steps|, moves, Player(Waiting(t)));
    forall k | from <= k < |acc.steps|
      ensures acc.states[k + 1].reqs == acc.states[k].reqs || InSchedule(schedule, acc.steps[k])
    {
      assert StepAt(acc.states, acc.steps, k) && Accounted(moves, acc.steps[k]);
      if Act(acc.steps[k]) in moves {
        WaitStepWritesNothing(acc.states[k], acc.steps[k], t);
      } else {
        var segment :| segment in OthersOf(moves) && acc.steps[k] in segment;
        assert segment in schedule;
      }
    }
  }

  /** If nobody else does anything, no request changes. */
  lemma {:induction false} NobodyWrites(ss: seq<State>, es: seq<Event>, from: nat, to: nat, schedule: seq<seq<Event>>)
    requires OnlyOthersWrite(ss, es, from, schedule) && from <= to <= |es|
    requires forall segment | segment in schedule :: segment == []
    ensures ss[to].reqs == ss[from].reqs
  {
    if from < to {
      NobodyWrites(ss, es, from, to - 1, schedule);
      assert !InSchedule(schedule, es[to - 1]);
    }
  }

  lemma WaitMovesWait(moves: seq<Move<Event>>, t: nat, r: nat, timed: bool, done: bool)
    requires WaitMoves(moves, t, r, timed, done)
    ensures WaitsOnly(moves, t, timed)
  {
  }

  /** mmap_wait_request. The status is first looked at without the lock; false means RET_INVALID_OPERATION. The moves are
      those of the wait, if there is one. */
  method WaitRequest(acc: MmapAccessor, t: nat, r: nat, timed: bool, schedule: seq<seq<Event>>)
    returns (ok: bool, done: bool, ghost moves: seq<Move<Event>>)
    requires acc.Run().Some? && t < |acc.waiters| && acc.waiters[t].phase.Outside? && r < |acc.reqs|
    modifies acc.Repr
    ensures RanOn(acc) && Onward(old(acc.View()), acc.View()) && t < |acc.waiters| && r < |acc.reqs|
    ensures ok <==> old(acc.reqs[r].status) != Init && old(acc.reqs[r].status) != Cancel
    ensures !ok || old(acc.reqs[r].status) != Submitted ==>
              done && moves == [] && acc.steps == old(acc.steps) && acc.View() == old(acc.View())
    ensures done && (PutIn(old(acc.View()), r) || old(acc.reqs[r].status) == Submitted) ==> Done(acc.View(), r)
    ensures !done ==> acc.waiters[t].phase == Blocked(r) && (acc.waiters[t].timer == NoTimer <==> !timed)
    ensures !done && acc.waiters[t].timer == Armed ==> TimerCanFire(acc.View(), t, r)
    ensures !done && SoleRun(acc.states, acc.steps) ==> acc.reqs[r].status == Submitted
    ensures !done && SoleRun(acc.states, acc.steps) && timed ==> acc.waiters[t].timer == Armed
    ensures !done && SoleRun(acc.states, acc.steps) && TimelyRun(acc.states, acc.steps) ==>
              PlaceIn(acc.View(), r).Unpublished()
    ensures TracedFrom(acc.states, acc.steps, |old(acc.steps)|, moves, Player(Waiting(t)))
    ensures ok && old(acc.reqs[r].status) == Submitted ==> WaitMoves(moves, t, r, timed, done)
    ensures OthersOf(moves) <= schedule && (!done ==> OthersOf(moves) == schedule)
    ensures OnlyOthersWrite(acc.states, acc.steps, |old(acc.steps)|, schedule)
  {
    hide MmapAccessor.Run, Onward, Inv, SoleRun, TimelyRun, PlaceIn, Done, PutIn, TracedFrom, WaitMoves, WaitsOnly;
    hide OnlyOthersWrite, Waits, TimerCanFire;
    var status := acc.reqs[r].status;
    ok := status != Init && status != Cancel;
    ghost var s0, from := acc.View(), |acc.steps|;
    Since(acc, from);
    NothingYet(acc.states, acc.steps, Player(Waiting(t)));
    moves := [];
    NothingWritten(acc.states, acc.steps, schedule);
    if ok && status == Submitted {
      SubmittedIsPut(acc.View(), r);
      PutKnown(acc.View(), r);
      var next;
      done, next, moves := WaitFor(acc, t, r, timed, schedule, 0);
      WaitMovesWait(moves, t, r, timed, done);
      WaitWritesNothing(acc, from, t, timed, moves, schedule);
      if !done {
        Pending(acc, s0, t, r, timed);
      }
    } else {
      done := true;
      if PutIn(acc.View(), r) {
        PutKnown(acc.View(), r);
        PutIsDecided(acc.View(), r);
      }
    }
  }

  lemma NothingWritten(ss: seq<State>, es: seq<Event>, schedule: seq<seq<Event>>)
    requires |ss| == |es| + 1
    ensures OnlyOthersWrite(ss, es, |es|, schedule)
  {
  }

  lemma PutKnown(s: State, r: nat)
    ensures PutIn(s, r) <==> r < |s.reqs| && s.reqs[r].put.Put?
  {
  }

  /** A thread still blocked: its timer, if it is armed, can fire; and if no other thread waits for the request, it is
      SUBMITTED, so a timer that has been armed has not fired. */
  lemma Pending(acc: MmapAccessor, s0: State, t: nat, r: nat, timed: bool)
    requires acc.Run().Some? && t < |acc.waiters| && acc.waiters[t].phase == Blocked(r) && r < |acc.reqs|
    requires Waits(s0, acc.View(), t, r, timed) && PutIn(s0, r)
    ensures acc.waiters[t].timer == NoTimer <==> !timed
    ensures acc.waiters[t].timer == Armed ==> TimerCanFire(acc.View(), t, r)
    ensures SoleRun(acc.states, acc.steps) ==> acc.reqs[r].status == Submitted && acc.waiters[t].timer != Fired
    ensures SoleRun(acc.states, acc.steps) && TimelyRun(acc.states, acc.steps) ==> PlaceIn(acc.View(), r).Unpublished()
  {
    hide MmapAccessor.Run, TimerCanFire, SoleRun, TimelyRun, PlaceIn;
    if acc.waiters[t].timer == Armed {
      ArmedCanFire(acc.View(), t, r);
    }
    if SoleRun(acc.states, acc.steps) {
      StillSubmitted(acc, t, r);
      assert acc.View().reqs[r].status == acc.reqs[r].status;
    }
  }

  // ---------------------------------------------------------------- waitAll

  /** A request is in the queue: its put has come as far as the append. */
  ghost predicate Listed(s: State, r: nat) {
    r in s.pool.slots
  }

  /** Of the first n queue entries of an earlier state, those whose puts had returned are done. */
  ghost predicate DoneUpTo(s0: State, s: State, n: nat) {
    forall i | 0 <= i < n && i < |s0.pool.log| && s0.pool.log[i].task.Work? && PutIn(s0, s0.pool.log[i].task.req) ::
      Done(s, s0.pool.log[i].task.req)
  }

  lemma NoneYet(s0: State)
    ensures DoneUpTo(s0, s0, 0)
  {
  }

  lemma DoneUpToStays(s0: State, s: State, s': State, n: nat)
    requires Onward(s, s') && DoneUpTo(s0, s, n)
    ensures DoneUpTo(s0, s', n)
  {
  }

  lemma OneMoreDone(s0: State, s: State, s': State, n: nat)
    requires Onward(s0, s) && Onward(s, s') && DoneUpTo(s0, s, n) && n < |s0.pool.log| && s0.pool.log[n].task.Work?
    requires PutIn(s, s0.pool.log[n].task.req) ==> Done(s', s0.pool.log[n].task.req)
    ensures DoneUpTo(s0, s', n + 1)
  {
  }

  /** The i-th entry of a queue without sentinels, in that state and in any later one. */
  lemma EntryStays(s0: State, s: State, i: nat)
    requires Inv(s0) && s0.pool.sentinels == [] && Onward(s0, s) && i < |s0.pool.log|
    ensures s0.pool.log[i].task.Work? && s0.pool.log[i].task.req < |s0.reqs| && Listed(s0, s0.pool.log[i].task.req)
    ensures i < |s.pool.log| && s.pool.log[i].task == s0.pool.log[i].task
  {
  }

  lemma ListedAreCovered(s0: State, s: State, r: nat)
    requires Inv(s0) && DoneUpTo(s0, s, |s0.pool.log|) && Listed(s0, r) && PutIn(s0, r)
    ensures Done(s, r)
  {
  }

  /** The number of queue entries so far. */
  method Total(acc: MmapAccessor) returns (n: nat)
    requires acc.Run().Some?
    ensures n == |acc.View().pool.log| && Inv(acc.View()) && |acc.View().reqs| == |acc.reqs|
    ensures Onward(acc.View(), acc.View())
  {
    Since(acc, |acc.steps|);
    n := acc.distributor.taskQueue.totoalCnt;
  }

  /** The request of a queue entry. */
  method RequestAt(acc: MmapAccessor, i: nat) returns (r: nat)
    requires acc.Run().Some? && i < |acc.View().pool.log| && acc.View().pool.log[i].task.Work?
    ensures r == acc.View().pool.log[i].task.req
  {
    var queue := acc.distributor.taskQueue;
    assert queue.requestQueue[i] == queue.requestQueue[..queue.tail][i];
    r := queue.requestQueue[i].req;
  }

  /** What a final status stands for: a success for the work having been done; a failure for work never done, of a read
      after three attempts and of a write after a failed msync; CANCEL for a cancel call or a timeout that met the request
      SUBMITTED. Before the worker's verdict and the mark, IOFAIL can also be about the buffer. */
  ghost predicate Decided(ss: seq<State>, es: seq<Event>, r: nat) {
    && |ss| == |es| + 1 && r < |ss[|es|].reqs| && ss[|es|].reqs[r].Accepted() && ss[|es|].reqs[r].status.Final()
    && var k, q := |es|, ss[|es|].reqs[r];
    && (q.status == IoSuccess ==> WorkDone(ss, es, k, r))
    && (q.status == IoFail && q.dir == Read ==> FailuresSoFar(ss, es, k, r) == 3)
    && (q.status == IoFail && Past(q, PlaceIn(ss[k], r)) ==>
          NeverDone(ss, es, k, r) && (q.dir == Write ==> SyncFailed(ss, es, k, r)))
    && (q.status == Cancel ==> WasCancelled(ss, es, k, r))
  }

  lemma FinalIsDecided(ss: seq<State>, es: seq<Event>, r: nat)
    requires IsRun(ss, es) && r < |ss[|es|].reqs| && ss[|es|].reqs[r].Accepted() && ss[|es|].reqs[r].status.Final()
    ensures Decided(ss, es, r)
  {
    hide WorkDone, NeverDone, SyncFailed, WasCancelled, FailuresSoFar;
    var q := ss[|es|].reqs[r];
    if q.status == IoSuccess {
      SuccessMeansDone(ss, es, |es|, r);
    }
    if q.status == IoFail && q.dir == Read {
      FailureMeansThreeAttempts(ss, es, |es|, r);
    }
    if q.status == IoFail && Past(q, PlaceIn(ss[|es|], r)) {
      VerdictIsTrue(ss, es, |es|, r);
    }
    if q.status == Cancel {
      CancelMeansCancelled(ss, es, |es|, r);
    }
  }

  lemma AllDecided(acc: MmapAccessor, s0: State)
    requires acc.Run().Some? && Inv(s0) && DoneUpTo(s0, acc.View(), |s0.pool.log|)
    ensures forall r | Listed(s0, r) && PutIn(s0, r) :: Decided(acc.states, acc.steps, r)
  {
    forall r | Listed(s0, r) && PutIn(s0, r)
      ensures Decided(acc.states, acc.steps, r)
    {
      ListedAreCovered(s0, acc.View(), r);
      FinalIsDecided(acc.states, acc.steps, r);
    }
  }

  /** Of the first n entries of an earlier queue, thread t has waited for every one. */
  ghost predicate LeftUpTo(s0: State, ss: seq<State>, es: seq<Event>, from: nat, t: nat, n: nat) {
    forall i | 0 <= i < n && i < |s0.pool.log| && s0.pool.log[i].task.Work? :: Left(ss, es, from, t, s0.pool.log[i].task.req)
  }

  lemma NoneLeftYet(s0: State, ss: seq<State>, es: seq<Event>, from: nat, t: nat)
    ensures LeftUpTo(s0, ss, es, from, t, 0)
  {
  }

  lemma OneMoreLeft(acc: MmapAccessor, s0: State, ss: seq<State>, es: seq<Event>, from: nat, at: nat, t: nat, n: nat)
    requires acc.Run().Some? && ss <= acc.states && es <= acc.steps && LeftUpTo(s0, ss, es, from, t, n) && from <= at
    requires n < |s0.pool.log| && s0.pool.log[n].task.Work?
    requires Left(acc.states, acc.steps, at, t, s0.pool.log[n].task.req)
    ensures LeftUpTo(s0, acc.states, acc.steps, from, t, n + 1)
  {
    forall i | 0 <= i <= n && s0.pool.log[i].task.Work?
      ensures Left(acc.states, acc.steps, from, t, s0.pool.log[i].task.req)
    {
      if i < n {
        LeftStays(ss, es, acc.states, acc.steps, from, from, t, s0.pool.log[i].task.req);
      } else {
        LeftStays(acc.states, acc.steps, acc.states, acc.steps, at, from, t, s0.pool.log[i].task.req);
      }
    }
  }

  /** Thread t has waited for the request, and if its put had returned when the thread looked, and only then, the request
      had ended for good, with all that its final status stands for. */
  ghost predicate Passed(ss: seq<State>, es: seq<Event>, from: nat, t: nat, r: nat) {
    && |ss| == |es| + 1
    && exists j: nat {:trigger LeavesAt(ss, es, j, t, r)} ::
         && from <= j < |es| && LeavesAt(ss, es, j, t, r)
         && (EndedSince(ss, j, r) <==> ss[j].reqs[r].Returned())
         && (ss[j].reqs[r].Returned() ==> Decided(ss, es, r))
  }

  lemma LeftIsPassed(ss: seq<State>, es: seq<Event>, from: nat, t: nat, r: nat)
    requires IsRun(ss, es) && from <= |es| && Left(ss, es, from, t, r) && Listed(ss[|es|], r)
    ensures Passed(ss, es, from, t, r)
    ensures PutIn(ss[from], r) ==> Decided(ss, es, r)
  {
    var j: nat :| from <= j < |es| && LeavesAt(ss, es, j, t, r);
    WaitsEndDecided(ss, es, j, t, r);
    if PutIn(ss[from], r) {
      ReturnedStays(ss, es, from, j, r);
    }
    if ss[j].reqs[r].Returned() {
      InvThroughoutRun(ss, es, |es|);
      assert ss[|es|].reqs[r].Ended() && ss[|es|].reqs[r].Accepted();
      FinalIsDecided(ss, es, r);
    }
    assert LeavesAt(ss, es, j, t, r);
  }

  lemma AllPassed(acc: MmapAccessor, s0: State, from: nat, t: nat)
    requires acc.Run().Some? && from <= |acc.steps| && s0 == acc.states[from] && Inv(s0)
    requires LeftUpTo(s0, acc.states, acc.steps, from, t, |s0.pool.log|)
    ensures forall r | Listed(s0, r) :: Passed(acc.states, acc.steps, from, t, r)
    ensures forall r | Listed(s0, r) && PutIn(s0, r) :: Decided(acc.states, acc.steps, r)
  {
    hide Passed, Left, Decided, Onward;
    Since(acc, from);
    forall r | Listed(s0, r)
      ensures Passed(acc.states, acc.steps, from, t, r)
      ensures PutIn(s0, r) ==> Decided(acc.states, acc.steps, r)
    {
      var i := s0.pool.slots[r];
      assert s0.pool.log[i].task == P.Work(r);
      StillListed(acc, s0, i);
      LeftIsPassed(acc.states, acc.steps, from, t, r);
    }
  }

  /** The requests in the queue, in order; of a queue without sentinels. */
  ghost function QueuedIn(s: State): seq<nat> {
    seq(|s.pool.log|, i requires 0 <= i < |s.pool.log| => if s.pool.log[i].task.Work? then s.pool.log[i].task.req else 0)
  }

  /** The requests for which waits are begun, in order. */
  ghost function Begun(moves: seq<Move<Event>>): seq<nat> {
    if moves == [] then []
    else
      var m := moves[|moves| - 1];
      Begun(moves[..|moves| - 1]) + if m.Act? && m.e.WaitBegin? then [m.e.r] else []
  }

  lemma {:induction false} BegunParts(first: seq<Move<Event>>, second: seq<Move<Event>>)
    ensures Begun(first + second) == Begun(first) + Begun(second)
    decreases |second|
  {
    if second == [] {
      assert first + second == first;
    } else {
      assert (first + second)[..|first + second| - 1] == first + second[..|second| - 1];
      BegunParts(first, second[..|second| - 1]);
    }
  }

  lemma {:induction false} OneWaitBegun(moves: seq<Move<Event>>, t: nat, r: nat, timed: bool, done: bool)
    requires WaitMoves(moves, t, r, timed, done)
    ensures Begun(moves) == [r]
    decreases |moves|
  {
    if |moves| == 1 {
      assert moves[..0] == [];
    } else {
      OneWaitBegun(moves[..|moves| - 1], t, r, timed, false);
    }
  }

  /** The moves of waitAll so far: untimed waits of thread t, one for each of the first n queue entries, in order. */
  ghost predicate AllWaitMoves(moves: seq<Move<Event>>, t: nat, queue: seq<nat>, n: nat) {
    n <= |queue| && WaitsOnly(moves, t, false) && Begun(moves) == queue[..n]
  }

  lemma NoWaitYet(t: nat, queue: seq<nat>)
    ensures AllWaitMoves([], t, queue, 0) && OthersOf<Event>([]) == []
  {
  }

  lemma OneMoreWait(moves: seq<Move<Event>>, more: seq<Move<Event>>, t: nat, r: nat, done: bool, queue: seq<nat>, n: nat)
    requires AllWaitMoves(moves, t, queue, n) && n < |queue| && queue[n] == r && WaitMoves(more, t, r, false, done)
    ensures AllWaitMoves(moves + more, t, queue, n + 1)
    ensures OthersOf(moves + more) == OthersOf(moves) + OthersOf(more)
  {
    WaitMovesWait(more, t, r, false, done);
    OneWaitBegun(more, t, r, false, done);
    BegunParts(moves, more);
    OthersOfParts(moves, more);
  }

  /** One turn of the loop of mmap_wait_all_requests: the wait for the i-th queue entry. */
  method WaitTurn(acc: MmapAccessor, t: nat, i: nat, schedule: seq<seq<Event>>, start: nat, ghost s0: State,
                  ghost from: nat, ghost moves: seq<Move<Event>>)
    returns (done: bool, next: nat, r: nat, ghost moves': seq<Move<Event>>)
    requires acc.Run().Some? && t < |acc.waiters| && acc.waiters[t].phase.Outside?
    requires Onward(s0, acc.View()) && |s0.reqs| <= |acc.reqs| && Inv(s0) && s0.pool.sentinels == [] && i < |s0.pool.log|
    requires LeftUpTo(s0, acc.states, acc.steps, from, t, i) && from <= |acc.steps| && start <= |schedule|
    requires TracedFrom(acc.states, acc.steps, from, moves, Player(Waiting(t)))
    requires AllWaitMoves(moves, t, QueuedIn(s0), i) && OthersOf(moves) == schedule[..start]
    modifies acc.Repr
    ensures RanOn(acc) && Onward(s0, acc.View()) && t < |acc.waiters| && |s0.reqs| <= |acc.reqs|
    ensures Listed(s0, r) && r < |s0.reqs| && start <= next <= |schedule|
    ensures if done then acc.waiters[t].phase.Outside? && LeftUpTo(s0, acc.states, acc.steps, from, t, i + 1)
            else acc.waiters[t] == Waiter(Blocked(r), NoTimer) && next == |schedule|
    ensures TracedFrom(acc.states, acc.steps, from, moves', Player(Waiting(t)))
    ensures AllWaitMoves(moves', t, QueuedIn(s0), i + 1) && OthersOf(moves') == schedule[..next]
  {
    hide MmapAccessor.Run, MmapAccessor.View, Onward, Inv, LeftUpTo, Left, Waits, Done, PutIn, Listed, TracedFrom;
    hide AllWaitMoves, WaitMoves, OthersOf, QueuedIn;
    EntryStays(s0, acc.View(), i);
    EntryIsQueued(s0, i);
    ghost var before, ss, es := acc.View(), acc.states, acc.steps;
    r := RequestAt(acc, i);
    ghost var more;
    done, next, more := WaitFor(acc, t, r, false, schedule, start);
    OnwardOn(s0, before, acc.View());
    PartTraced(ss, es, acc.states, acc.steps, from, moves, more, Player(Waiting(t)));
    OneMoreWait(moves, more, t, r, done, QueuedIn(s0), i);
    moves' := moves + more;
    assert schedule[..start] + schedule[start..next] == schedule[..next];
    if done {
      OneMoreLeft(acc, s0, ss, es, from, |es|, t, i);
    } else {
      WaitsOnward(before, acc.View(), t, r, false);
      TimerShown(acc, t);
    }
  }

  /** mmap_wait_all_requests. When it returns, it has waited for every request that was in the queue on entry; each whose
      put had returned when its turn came, and no other, had ended by then, with all that its final status stands for. If
      the schedule ends first, the thread is blocked on one of those requests, which is still SUBMITTED if no other thread
      waits for it. The waits are untimed, one for each queue entry in order, and write no request: whatever changes the
      requests meanwhile comes from the schedule. */
  method WaitAll(acc: MmapAccessor, t: nat, schedule: seq<seq<Event>>) returns (done: bool, ghost moves: seq<Move<Event>>)
    requires acc.Run().Some? && t < |acc.waiters| && acc.waiters[t].phase.Outside?
    requires acc.View().pool.sentinels == []
    modifies acc.Repr
    ensures RanOn(acc) && Onward(old(acc.View()), acc.View()) && t < |acc.waiters|
    ensures done ==> acc.waiters[t].phase.Outside?
    ensures done ==> forall r | Listed(old(acc.View()), r) :: Passed(acc.states, acc.steps, |old(acc.steps)|, t, r)
    ensures done ==> forall r | Listed(old(acc.View()), r) && PutIn(old(acc.View()), r) :: Decided(acc.states, acc.steps, r)
    ensures !done ==> acc.waiters[t].phase.Blocked? && Listed(old(acc.View()), acc.waiters[t].phase.r)
    ensures !done ==> acc.waiters[t].timer == NoTimer
    ensures !done && SoleRun(acc.states, acc.steps) ==>
              acc.waiters[t].phase.r < |acc.reqs| && acc.reqs[acc.waiters[t].phase.r].status == Submitted
    ensures !done && SoleRun(acc.states, acc.steps) && TimelyRun(acc.states, acc.steps) ==>
              PlaceIn(acc.View(), acc.waiters[t].phase.r).Unpublished()
    ensures TracedFrom(acc.states, acc.steps, |old(acc.steps)|, moves, Player(Waiting(t)))
    ensures WaitsOnly(moves, t, false) && Begun(moves) <= QueuedIn(old(acc.View()))
    ensures done ==> Begun(moves) == QueuedIn(old(acc.View()))
    ensures OthersOf(moves) <= schedule && (!done ==> OthersOf(moves) == schedule)
    ensures OnlyOthersWrite(acc.states, acc.steps, |old(acc.steps)|, schedule)
    ensures (forall segment | segment in schedule :: segment == []) ==> acc.View().reqs == old(acc.View()).reqs
  {
    hide MmapAccessor.Run, MmapAccessor.View, Onward, Inv, LeftUpTo, SoleRun, TimelyRun, PlaceIn;
    hide Passed, Decided, PutIn, Listed, TracedFrom, AllWaitMoves, OthersOf, OnlyOthersWrite, QueuedIn;
    ghost var s0, from := acc.View(), |acc.steps|;
    var n := Total(acc);
    var i, next := 0, 0;
    moves := [];
    RunLength(acc);
    NothingYet(acc.states, acc.steps, Player(Waiting(t)));
    NoWaitYet(t, QueuedIn(s0));
    NoneLeftYet(s0, acc.states, acc.steps, from, t);
    while i < n
      invariant RanOn(acc) && Onward(s0, acc.View()) && t < |acc.waiters| && acc.waiters[t].phase.Outside?
      invariant |s0.reqs| <= |acc.reqs| && 0 <= i <= n && 0 <= next <= |schedule|
      invariant LeftUpTo(s0, acc.states, acc.steps, from, t, i)
      invariant TracedFrom(acc.states, acc.steps, from, moves, Player(Waiting(t)))
      invariant AllWaitMoves(moves, t, QueuedIn(s0), i) && OthersOf(moves) == schedule[..next]
    {
      var r;
      done, next, r, moves := WaitTurn(acc, t, i, schedule, next, s0, from, moves);
      i := i + 1;
      if !done {
        WaitedSoFar(acc, s0, from, t, moves, QueuedIn(s0), i, schedule);
        if SoleRun(acc.states, acc.steps) {
          StillSubmitted(acc, t, r);
        }
        return;
      }
    }
    WaitedSoFar(acc, s0, from, t, moves, QueuedIn(s0), n, schedule);
    AllPassed(acc, s0, from, t);
    done := true;
  }

  lemma TimerShown(acc: MmapAccessor, t: nat)
    requires t < |acc.waiters|
    ensures acc.View().waiters == acc.waiters
  {
  }

  lemma EntryIsQueued(s: State, i: nat)
    requires i < |s.pool.log| && s.pool.log[i].task.Work?
    ensures |QueuedIn(s)| == |s.pool.log| && QueuedIn(s)[i] == s.pool.log[i].task.req
  {
  }

  lemma WaitedSoFar(acc: MmapAccessor, s0: State, from: nat, t: nat, moves: seq<Move<Event>>, queue: seq<nat>, n: nat,
                    schedule: seq<seq<Event>>)
    requires acc.Run().Some? && TracedFrom(acc.states, acc.steps, from, moves, Player(Waiting(t)))
    requires s0 == acc.states[from] && queue == QueuedIn(s0)
    requires AllWaitMoves(moves, t, queue, n) && OthersOf(moves) <= schedule
    ensures WaitsOnly(moves, t, false) && Begun(moves) <= queue && (n == |s0.pool.log| ==> Begun(moves) == queue)
    ensures OnlyOthersWrite(acc.states, acc.steps, from, schedule)
    ensures (forall segment | segment in schedule :: segment == []) ==> acc.View().reqs == s0.reqs
  {
    hide MmapAccessor.Run, OnlyOthersWrite, WaitsOnly, Begun, OthersOf;
    assert |queue| == |s0.pool.log|;
    assert queue[..n] <= queue && (n == |queue| ==> queue[..n] == queue);
    WaitWritesNothing(acc, from, t, false, moves, schedule);
    RunLength(acc);
    if forall segment | segment in schedule :: segment == [] {
      NobodyWrites(acc.states, acc.steps, from, |acc.steps|, schedule);
    }
  }

  // ---------------------------------------------------------------- cancelling

  lemma NeverInitAgain(s: State, e: Event, r: nat)
    requires Enabled(s, e) && r < |s.reqs| && s.reqs[r].status != Init
    ensures NextRequest(s, e, r).status != Init
  {
  }

  lemma {:induction false} NotInitInRun(ss: seq<State>, es: seq<Event>, from: nat, to: nat, r: nat)
    requires IsRun(ss, es) && from <= to <= |es| && r < |ss[from].reqs| && ss[from].reqs[r].status != Init
    ensures r < |ss[to].reqs| && ss[to].reqs[r].status != Init
  {
    if from < to {
      NotInitInRun(ss, es, from, to - 1, r);
      assert StepAt(ss, es, to - 1);
      RequestAfterStep(ss[to - 1], es[to - 1], r);
      NeverInitAgain(ss[to - 1], es[to - 1], r);
    }
  }

  lemma CancelIsEnabled(s: State, r: nat, wake: set<nat>)
    requires r < |s.reqs| && s.reqs[r].status != Init && SignalOk(s.waiters, r, wake)
    ensures Next(s, Event.CancelRequest(r, wake)).Some?
    ensures var s' := Next(s, Event.CancelRequest(r, wake)).value;
            && |s'.reqs| == |s.reqs|
            && s'.reqs[r] == s.reqs[r].CancelUnlessDone()
  {
  }

  /** mmap_cancel_request. The status is first looked at without the lock; false means RET_INVALID_OPERATION. Its one act
      is the locked section. */
  method CancelRequest(acc: MmapAccessor, r: nat, between: seq<Event>) returns (ok: bool, ghost moves: seq<Move<Event>>)
    requires acc.Run().Some? && r < |acc.reqs|
    modifies acc.Repr
    ensures RanOn(acc) && Onward(old(acc.View()), acc.View()) && r < |acc.reqs|
    ensures ok <==> old(acc.reqs[r].status) != Init && old(acc.reqs[r].status) != Cancel
    ensures !ok ==> acc.View() == old(acc.View())
    ensures ok ==> acc.reqs[r].status.Final()
    ensures ok && Done(old(acc.View()), r) ==> acc.reqs[r].status == old(acc.reqs[r].status)
    ensures TracedFrom(acc.states, acc.steps, |old(acc.steps)|, moves, Player(Elsewhere))
    ensures if ok then |moves| == 2 && moves[0] == Others(between) && IsCancelOf(moves[1], r) else moves == []
  {
    hide Onward, TracedFrom, Done, IsCancelOf;
    Since(acc, |acc.steps|);
    NothingYet(acc.states, acc.steps, Player(Elsewhere));
    var status := acc.reqs[r].status;
    moves := [];
    ok := status != Init && status != Cancel;
    if ok {
      moves := CancelLater(acc, r, between);
    }
  }

  /** Before the section the others may run. */
  method CancelLater(acc: MmapAccessor, r: nat, between: seq<Event>) returns (ghost moves: seq<Move<Event>>)
    requires acc.Run().Some? && r < |acc.reqs| && acc.reqs[r].status != Init
    modifies acc.Repr
    ensures RanOn(acc) && Onward(old(acc.View()), acc.View()) && r < |acc.reqs| && acc.reqs[r].status.Final()
    ensures Done(old(acc.View()), r) ==> acc.reqs[r].status == old(acc.reqs[r].status)
    ensures TracedFrom(acc.states, acc.steps, |old(acc.steps)|, moves, Player(Elsewhere))
    ensures |moves| == 2 && moves[0] == Others(between) && IsCancelOf(moves[1], r)
  {
    ghost var s, from := acc.View(), |acc.steps|;
    assert s.reqs[r].status == acc.reqs[r].status;
    hide MmapAccessor.Run, MmapAccessor.View, Onward, TracedFrom, IsCancelOf;
    RunLength(acc);
    NothingYet(acc.states, acc.steps, Player(Elsewhere));
    ElapseFor(acc, r, between, from, []);
    ghost var middle := acc.View();
    moves := CancelNow(acc, r, from, [] + [Others(between)]);
    OnwardOn(s, middle, acc.View());
    DoneStays(s, acc.View(), r);
  }

  ghost predicate IsCancelOf(m: Move<Event>, r: nat) {
    m.Act? && m.e.CancelRequest? && m.e.r == r
  }

  /** The others run; a status that has left INIT does not return to it. */
  method ElapseFor(acc: MmapAccessor, r: nat, es: seq<Event>, ghost from: nat, ghost moves: seq<Move<Event>>)
    requires acc.Run().Some? && r < |acc.reqs| && acc.reqs[r].status != Init
    requires TracedFrom(acc.states, acc.steps, from, moves, Player(Elsewhere))
    modifies acc.Repr
    ensures RanOn(acc) && Onward(old(acc.View()), acc.View())
    ensures r < |acc.reqs| && acc.reqs[r].status != Init
    ensures TracedFrom(acc.states, acc.steps, from, moves + [Others(es)], Player(Elsewhere))
  {
    hide TracedFrom;
    ghost var at := |acc.steps|;
    LetRun(acc, Elsewhere, es, from, moves);
    Since(acc, at);
    NotInitInRun(acc.states, acc.steps, at, |acc.steps|, r);
    assert acc.View().reqs[r].status != Init;
  }

  /** The locked section of mmap_cancel_request. */
  method CancelNow(acc: MmapAccessor, r: nat, ghost from: nat, ghost moves: seq<Move<Event>>)
    returns (ghost moves': seq<Move<Event>>)
    requires acc.Run().Some? && r < |acc.reqs| && acc.reqs[r].status != Init
    requires TracedFrom(acc.states, acc.steps, from, moves, Player(Elsewhere))
    modifies acc.Repr
    ensures RanOn(acc) && Onward(old(acc.View()), acc.View())
    ensures r < |acc.reqs| && r < |acc.View().reqs| && acc.View().reqs[r].status == acc.reqs[r].status
    ensures acc.reqs[r].status.Final()
    ensures TracedFrom(acc.states, acc.steps, from, moves', Player(Elsewhere))
    ensures |moves'| == |moves| + 1 && moves'[..|moves|] == moves && IsCancelOf(moves'[|moves|], r)
  {
    hide Inv, Onward, TracedFrom;
    ghost var at, s := |acc.steps|, acc.View();
    var wake := Signalled(BlockedThreads(acc.waiters, r));
    CancelIsEnabled(s, r, wake);
    Take(acc, Event.CancelRequest(r, wake), Elsewhere, from, moves);
    moves' := moves + [Act(Event.CancelRequest(r, wake))];
    Since(acc, at);
    assert acc.View().reqs[r] == s.reqs[r].CancelUnlessDone();
  }

  lemma CancelsListed(s: State, r: nat, wake: set<nat>)
    requires r < |s.reqs| && Listed(s, r) && SignalOk(s.waiters, r, wake)
    ensures Next(s, CancelAllSection(r, wake)).Some?
    ensures var s' := Next(s, CancelAllSection(r, wake)).value;
            && |s'.reqs| == |s.reqs|
            && s'.reqs[r] == s.reqs[r].CancelIfSubmitted()
  {
  }

  /** No worker has looked at the request yet. */
  ghost predicate NotBegun(s: State, r: nat) {
    PlaceIn(s, r).Queued? || PlaceIn(s, r) == At(P.FirstCheck)
  }

  /** cancelAll came to the request in some step from the given one on. If the put had returned by then, and only then, the
      request has ended since. If no worker had looked at it then, no worker has mapped, copied or synced it since, and
      none ever will. */
  ghost predicate Stopped(ss: seq<State>, es: seq<Event>, from: nat, r: nat) {
    && |ss| == |es| + 1
    && exists j: nat {:trigger StoppedAt(ss, es, j, r)} :: from <= j < |es| && StoppedAt(ss, es, j, r)
  }

  ghost predicate StoppedAt(ss: seq<State>, es: seq<Event>, j: nat, r: nat)
    requires j < |es| && |ss| == |es| + 1
  {
    && es[j].CancelAllSection? && es[j].r == r && r < |ss[j].reqs| && r < |ss[j + 1].reqs|
    && (EndedSince(ss, j + 1, r) <==> ss[j].reqs[r].Returned())
    && (PutIn(ss[j], r) && ss[j].reqs[r].status == Submitted && NotBegun(ss[j], r) ==>
          && CancelledInTime(ss[|es|], r)
          && forall k {:trigger IoOn(ss[k], es[k], r)} | j < k < |es| :: !IoOn(ss[k], es[k], r))
  }

  lemma CancelStops(s: State, r: nat, wake: set<nat>)
    requires Next(s, CancelAllSection(r, wake)).Some?
    requires PutIn(s, r) && s.reqs[r].status == Submitted && NotBegun(s, r)
    ensures CancelledInTime(Next(s, CancelAllSection(r, wake)).value, r)
  {
    var s' := Next(s, CancelAllSection(r, wake)).value;
    assert s'.pool == s.pool && s'.reqs[r] == s.reqs[r].CancelIfSubmitted();
  }

  /** A cancelled request has ended if and only if its put had returned. */
  lemma CancelEndsReturned(ss: seq<State>, es: seq<Event>, j: nat, r: nat)
    requires IsRun(ss, es) && j < |es| && es[j].CancelAllSection? && es[j].r == r && r < |ss[j].reqs|
    ensures r < |ss[j + 1].reqs| && (EndedSince(ss, j + 1, r) <==> ss[j].reqs[r].Returned())
  {
    hide Core, Lifecycle.Enabled, Lifecycle.Step;
    InvThroughoutRun(ss, es, j + 1);
    assert StepAt(ss, es, j);
    RequestAfterStep(ss[j], es[j], r);
    assert ss[j + 1].reqs[r] == ss[j].reqs[r].CancelIfSubmitted();
    EndedUnlessSubmitted(ss[j + 1], r);
    if ss[j].reqs[r].Returned() {
      forall k | j + 1 <= k < |ss|
        ensures r < |ss[k].reqs| && ss[k].reqs[r].Ended() && ss[k].reqs[r].status == ss[j + 1].reqs[r].status
      {
        FinalForever(ss, es, j + 1, k, r);
      }
    }
  }

  lemma StoppedStays(ss: seq<State>, es: seq<Event>, ss': seq<State>, es': seq<Event>, from: nat, r: nat)
    requires Stopped(ss, es, from, r) && IsRun(ss', es') && ss <= ss' && es <= es'
    ensures Stopped(ss', es', from, r)
  {
    var j: nat :| from <= j < |es| && StoppedAt(ss, es, j, r);
    assert es'[j] == es[j] && ss'[j] == ss[j] && ss'[|es|] == ss[|es|];
    CancelEndsReturned(ss', es', j, r);
    if PutIn(ss[j], r) && ss[j].reqs[r].status == Submitted && NotBegun(ss[j], r) {
      CancelledIsNeverRun(ss', es', |es|, |es'|, r);
      forall k {:trigger IoOn(ss'[k], es'[k], r)} | j < k < |es'|
        ensures !IoOn(ss'[k], es'[k], r)
      {
        if k < |es| {
          assert ss'[k] == ss[k] && es'[k] == es[k];
          assert !IoOn(ss[k], es[k], r);
        }
      }
    }
    assert StoppedAt(ss', es', j, r);
  }

  /** Of the first n entries of an earlier queue, cancelAll has come to every one. */
  ghost predicate StoppedUpTo(s0: State, ss: seq<State>, es: seq<Event>, from: nat, n: nat) {
    forall i | 0 <= i < n && i < |s0.pool.log| && s0.pool.log[i].task.Work? :: Stopped(ss, es, from, s0.pool.log[i].task.req)
  }

  lemma NoneStoppedYet(s0: State, ss: seq<State>, es: seq<Event>, from: nat)
    ensures StoppedUpTo(s0, ss, es, from, 0)
  {
  }

  lemma OneMoreStopped(acc: MmapAccessor, s0: State, ss: seq<State>, es: seq<Event>, from: nat, at: nat, n: nat)
    requires acc.Run().Some? && ss <= acc.states && es <= acc.steps && StoppedUpTo(s0, ss, es, from, n) && from <= at
    requires n < |s0.pool.log| && s0.pool.log[n].task.Work?
    requires Stopped(acc.states, acc.steps, at, s0.pool.log[n].task.req)
    ensures StoppedUpTo(s0, acc.states, acc.steps, from, n + 1)
  {
    forall i | 0 <= i < n && i < |s0.pool.log| && s0.pool.log[i].task.Work?
      ensures Stopped(acc.states, acc.steps, from, s0.pool.log[i].task.req)
    {
      StoppedStays(ss, es, acc.states, acc.steps, from, s0.pool.log[i].task.req);
    }
  }

  lemma ListedAreStopped(s0: State, ss: seq<State>, es: seq<Event>, from: nat)
    requires Inv(s0) && StoppedUpTo(s0, ss, es, from, |s0.pool.log|)
    ensures forall r | Listed(s0, r) :: Stopped(ss, es, from, r)
  {
    forall r | Listed(s0, r)
      ensures Stopped(ss, es, from, r)
    {
      assert s0.pool.log[s0.pool.slots[r]].task == P.Work(r);
    }
  }

  lemma JustStopped(acc: MmapAccessor, s: State, from: nat, r: nat, wake: set<nat>)
    requires acc.Run().Some? && |acc.steps| == from + 1 && acc.steps[from] == CancelAllSection(r, wake)
    requires acc.states[from] == s && Next(s, CancelAllSection(r, wake)) == Some(acc.View()) && r < |s.reqs|
    ensures Stopped(acc.states, acc.steps, from, r)
  {
    if PutIn(s, r) && s.reqs[r].status == Submitted && NotBegun(s, r) {
      CancelStops(s, r, wake);
    }
    CancelEndsReturned(acc.states, acc.steps, from, r);
    assert StoppedAt(acc.states, acc.steps, from, r);
  }

  /** One turn of the loop of mmap_cancel_all_requests. */
  method CancelListed(acc: MmapAccessor, r: nat, ghost from: nat, ghost moves: seq<Move<Event>>)
    returns (ghost moves': seq<Move<Event>>)
    requires acc.Run().Some? && r < |acc.reqs| && Listed(acc.View(), r)
    requires TracedFrom(acc.states, acc.steps, from, moves, Player(Elsewhere))
    modifies acc.Repr
    ensures RanOn(acc) && Onward(old(acc.View()), acc.View()) && |old(acc.reqs)| <= |acc.reqs|
    ensures PutIn(old(acc.View()), r) ==> Done(acc.View(), r)
    ensures Stopped(acc.states, acc.steps, |old(acc.steps)|, r)
    ensures TracedFrom(acc.states, acc.steps, from, moves', Player(Elsewhere))
    ensures |moves'| == |moves| + 1 && moves'[..|moves|] == moves && IsStopOf(moves'[|moves|], r)
  {
    hide Inv, Onward, Stopped, TracedFrom, Done, PutIn, MmapAccessor.Run;
    ghost var at, s := |acc.steps|, acc.View();
    RunLength(acc);
    var wake := Signalled(BlockedThreads(acc.waiters, r));
    CancelsListed(s, r, wake);
    Take(acc, CancelAllSection(r, wake), Elsewhere, from, moves);
    moves' := moves + [Act(CancelAllSection(r, wake))];
    Since(acc, at);
    CancelledIsDecided(s, acc.View(), r);
    JustStopped(acc, s, at, r, wake);
  }

  ghost predicate IsStopOf(m: Move<Event>, r: nat) {
    m.Act? && m.e.CancelAllSection? && m.e.r == r
  }

  lemma CancelledIsDecided(s: State, s': State, r: nat)
    requires Inv(s') && r < |s.reqs| && r < |s'.reqs| && s'.reqs[r] == s.reqs[r].CancelIfSubmitted()
    ensures PutIn(s, r) ==> Done(s', r)
  {
    if PutIn(s, r) {
      PutIsDecided(s', r);
    }
  }

  /** The others run while the caller holds no lock. */
  method Elapse(acc: MmapAccessor, es: seq<Event>, ghost from: nat, ghost moves: seq<Move<Event>>)
    requires acc.Run().Some? && TracedFrom(acc.states, acc.steps, from, moves, Player(Elsewhere))
    modifies acc.Repr
    ensures RanOn(acc) && Onward(old(acc.View()), acc.View()) && |old(acc.reqs)| <= |acc.reqs|
    ensures TracedFrom(acc.states, acc.steps, from, moves + [Others(es)], Player(Elsewhere))
  {
    hide TracedFrom;
    ghost var at := |acc.steps|;
    LetRun(acc, Elsewhere, es, from, moves);
    Since(acc, at);
  }

  lemma StillListed(acc: MmapAccessor, s0: State, i: nat)
    requires acc.Run().Some? && Onward(s0, acc.View()) && i < |s0.pool.log| && s0.pool.log[i].task.Work?
    ensures Listed(acc.View(), s0.pool.log[i].task.req) && s0.pool.log[i].task.req < |acc.reqs|
  {
    Since(acc, |acc.steps|);
    assert acc.View().pool.log[i].task.Work?;
    assert s0.pool.log[i].task.req in acc.View().pool.slots;
  }

  /** What a schedule has for the i-th pause. */
  function Segment(schedule: seq<seq<Event>>, i: nat): seq<Event> {
    if i < |schedule| then schedule[i] else []
  }

  /** The moves of cancelAll so far: the others run, then the section for the next queue entry, and so on. */
  ghost predicate CancelAllMoves(moves: seq<Move<Event>>, queue: seq<nat>, schedule: seq<seq<Event>>, n: nat) {
    && n <= |queue| && |moves| == 2 * n
    && (forall i | 0 <= i < n :: moves[2 * i] == Others(Segment(schedule, i)) && IsStopOf(moves[2 * i + 1], queue[i]))
  }

  lemma NoCancelYet(queue: seq<nat>, schedule: seq<seq<Event>>)
    ensures CancelAllMoves([], queue, schedule, 0)
  {
  }

  lemma OneMoreCancel(moves: seq<Move<Event>>, moves': seq<Move<Event>>, queue: seq<nat>, schedule: seq<seq<Event>>, n: nat)
    requires CancelAllMoves(moves, queue, schedule, n) && n < |queue| && |moves'| == |moves| + 2
    requires moves'[..|moves| + 1] == moves + [Others(Segment(schedule, n))] && IsStopOf(moves'[|moves| + 1], queue[n])
    ensures CancelAllMoves(moves', queue, schedule, n + 1)
  {
    assert forall i | 0 <= i < |moves| :: moves'[i] == moves'[..|moves| + 1][i] == moves[i];
    assert moves'[|moves|] == moves'[..|moves| + 1][|moves|];
  }

  /** mmap_cancel_all_requests. When it returns, of the requests in the queue on entry those whose put had returned when
      their turn came, and no others, had ended with that turn: none of them is SUBMITTED any more, and a final status they
      had is kept. A request no worker had looked at by then is never mapped, copied or synced afterwards. Its acts are
      one locked section for each queue entry, in order. */
  method CancelAll(acc: MmapAccessor, schedule: seq<seq<Event>>) returns (ghost moves: seq<Move<Event>>)
    requires acc.Run().Some? && acc.View().pool.sentinels == []
    modifies acc.Repr
    ensures RanOn(acc) && Onward(old(acc.View()), acc.View())
    ensures forall r | Listed(old(acc.View()), r) && PutIn(old(acc.View()), r) :: Decided(acc.states, acc.steps, r)
    ensures forall r | Listed(old(acc.View()), r) :: Stopped(acc.states, acc.steps, |old(acc.steps)|, r)
    ensures TracedFrom(acc.states, acc.steps, |old(acc.steps)|, moves, Player(Elsewhere))
    ensures CancelAllMoves(moves, QueuedIn(old(acc.View())), schedule, |QueuedIn(old(acc.View()))|)
  {
    hide MmapAccessor.Run, MmapAccessor.View, Onward, Inv, DoneUpTo, Decided, Done, PutIn, Listed, Stopped, StoppedUpTo;
    hide TracedFrom, CancelAllMoves, QueuedIn;
    ghost var s0, from := acc.View(), |acc.steps|;
    var n := Total(acc);
    QueueLength(s0);
    moves := [];
    RunLength(acc);
    NothingYet(acc.states, acc.steps, Player(Elsewhere));
    NoCancelYet(QueuedIn(s0), schedule);
    NoneYet(s0);
    NoneStoppedYet(s0, acc.states, acc.steps, from);
    for i := 0 to n
      invariant RanOn(acc) && Onward(s0, acc.View()) && DoneUpTo(s0, acc.View(), i)
      invariant StoppedUpTo(s0, acc.states, acc.steps, from, i)
      invariant TracedFrom(acc.states, acc.steps, from, moves, Player(Elsewhere))
      invariant CancelAllMoves(moves, QueuedIn(s0), schedule, i)
    {
      moves := CancelTurn(acc, i, schedule, s0, from, moves);
    }
    AllDecided(acc, s0);
    ListedAreStopped(s0, acc.states, acc.steps, from);
  }

  lemma QueueLength(s: State)
    ensures |QueuedIn(s)| == |s.pool.log|
  {
  }

  method CancelTurn(acc: MmapAccessor, i: nat, schedule: seq<seq<Event>>, ghost s0: State, ghost from: nat,
                    ghost moves: seq<Move<Event>>)
    returns (ghost moves': seq<Move<Event>>)
    requires acc.Run().Some? && Onward(s0, acc.View()) && DoneUpTo(s0, acc.View(), i)
    requires Inv(s0) && s0.pool.sentinels == [] && i < |s0.pool.log| && from <= |acc.steps|
    requires StoppedUpTo(s0, acc.states, acc.steps, from, i)
    requires TracedFrom(acc.states, acc.steps, from, moves, Player(Elsewhere))
    requires CancelAllMoves(moves, QueuedIn(s0), schedule, i)
    modifies acc.Repr
    ensures RanOn(acc) && Onward(s0, acc.View()) && DoneUpTo(s0, acc.View(), i + 1)
    ensures StoppedUpTo(s0, acc.states, acc.steps, from, i + 1)
    ensures TracedFrom(acc.states, acc.steps, from, moves', Player(Elsewhere))
    ensures CancelAllMoves(moves', QueuedIn(s0), schedule, i + 1)
  {
    hide MmapAccessor.Run, MmapAccessor.View, Onward, Inv, DoneUpTo, Done, PutIn, Listed, Stopped, StoppedUpTo;
    hide TracedFrom, CancelAllMoves, QueuedIn;
    ghost var before, ss, es := acc.View(), acc.states, acc.steps;
    Elapse(acc, Segment(schedule, i), from, moves);
    ghost var middle, at := acc.View(), |acc.steps|;
    OnwardOn(s0, before, middle);
    EntryStays(s0, middle, i);
    EntryIsQueued(s0, i);
    StillListed(acc, s0, i);
    var r := RequestAt(acc, i);
    moves' := CancelListed(acc, r, from, moves + [Others(Segment(schedule, i))]);
    OneMoreCancel(moves, moves', QueuedIn(s0), schedule, i);
    DoneUpToStays(s0, before, middle, i);
    OneMoreDone(s0, middle, acc.View(), i);
    OneMoreStopped(acc, s0, ss, es, from, at, i);
    OnwardOn(s0, middle, acc.View());
  }

  // ---------------------------------------------------------------- putting

  /** Nobody but the putting thread moves a request through its put, and it enters the queue by its append only. */
  lemma PutStateStays(s: State, e: Event, r: nat)
    requires Enabled(s, e) && r < |s.reqs| && !Own(Putting(r), e)
    ensures r < |Step(s, e).reqs| && Step(s, e).reqs[r].put == s.reqs[r].put
    ensures |Step(s, e).pool.log| <= |s.pool.log| + 1
  {
    RequestAfterStep(s, e, r);
    if PoolPart(s, e).Some? {
      TasksAfterStep(s.pool, PoolPart(s, e).value);
    }
  }

  lemma {:induction false} PutStateInRun(ss: seq<State>, es: seq<Event>, from: nat, to: nat, r: nat)
    requires IsRun(ss, es) && from <= to <= |es| && r < |ss[from].reqs|
    requires forall k | from <= k < to :: !Own(Putting(r), es[k])
    ensures r < |ss[to].reqs| && ss[to].reqs[r].put == ss[from].reqs[r].put
    ensures |ss[to].pool.log| <= |ss[from].pool.log| + (to - from)
  {
    if from < to {
      PutStateInRun(ss, es, from, to - 1, r);
      assert StepAt(ss, es, to - 1);
      PutStateStays(ss[to - 1], es[to - 1], r);
    }
  }

  /** The others run while the putting thread of request r holds no lock. */
  method PutPause(acc: MmapAccessor, r: nat, es: seq<Event>, ghost from: nat, ghost moves: seq<Move<Event>>)
    requires acc.Run().Some? && r < |acc.reqs|
    requires TracedFrom(acc.states, acc.steps, from, moves, Player(Putting(r)))
    modifies acc.Repr
    ensures RanOn(acc) && r < |acc.reqs| && acc.reqs[r].put == old(acc.reqs[r].put)
    ensures |acc.distributor.log| <= |old(acc.distributor.log)| + |es|
    ensures TracedFrom(acc.states, acc.steps, from, moves + [Others(es)], Player(Putting(r)))
  {
    hide TracedFrom;
    ghost var at := |acc.steps|;
    LetRun(acc, Putting(r), es, from, moves);
    Since(acc, at);
    PutStateInRun(acc.states, acc.steps, at, |acc.steps|, r);
    assert acc.View().reqs[r].put == acc.reqs[r].put;
  }

  /** The gate: a request turned away is CANCEL at once, and its buffer is given back. */
  method Gate(acc: MmapAccessor, r: nat) returns (ghost moves: seq<Move<Event>>)
    requires acc.Run().Some? && r < |acc.reqs| && acc.reqs[r].put == NotPut
    requires acc.reqs[r].dir == Read ==> acc.reqs[r].buf.Caller?
    modifies acc.Repr
    ensures RanOn(acc) && r < |acc.reqs| && acc.distributor.log == old(acc.distributor.log)
    ensures if old(acc.distributor.isRunning) then acc.reqs[r].put == Gated
            else acc.reqs[r].put == Rejected && acc.reqs[r].status == Cancel && Owns(acc.View(), OfRequest(r)).None?
    ensures acc.reqs[r].buf.Mapped? && acc.reqs[r].put == Rejected ==> acc.reqs[r].buf.addr !in acc.maps
    ensures moves == [Act(PutGate(r))]
    ensures TracedFrom(acc.states, acc.steps, |old(acc.steps)|, moves, Player(Putting(r)))
  {
    hide TracedFrom;
    ghost var s, from := acc.View(), |acc.steps|;
    RunLength(acc);
    NothingYet(acc.states, acc.steps, Player(Putting(r)));
    Take(acc, PutGate(r), Putting(r), from, []);
    moves := [Act(PutGate(r))];
    assert [] + moves == moves;
    assert acc.View().reqs[r] == RequestStep(s, PutGate(r)) && acc.View().maps == MapsStep(s, PutGate(r));
    assert acc.View().reqs[r].put == acc.reqs[r].put;
  }

  ghost predicate IsAppendOf(m: Move<Event>, r: nat) {
    m.Act? && m.e.PutAppend? && m.e.r == r
  }

  /** The append: the task is the last of the queue now. */
  method Append(acc: MmapAccessor, r: nat, ghost from: nat, ghost moves: seq<Move<Event>>)
    returns (ghost moves': seq<Move<Event>>)
    requires acc.Run().Some? && r < |acc.reqs| && acc.reqs[r].put == Gated && |acc.distributor.log| < P.MAX_TASKS
    requires TracedFrom(acc.states, acc.steps, from, moves, Player(Putting(r)))
    modifies acc.Repr
    ensures RanOn(acc) && r < |acc.reqs| && acc.reqs[r].put == Enqueued
    ensures TracedFrom(acc.states, acc.steps, from, moves', Player(Putting(r)))
    ensures |moves'| == |moves| + 1 && moves'[..|moves|] == moves && IsAppendOf(moves'[|moves|], r)
  {
    hide Inv, Onward, TracedFrom;
    ghost var s := acc.View();
    Since(acc, |acc.steps|);
    var wake := Signalled(P.Sleepers(acc.distributor.workers));
    AppendOk(s, r, wake);
    Take(acc, PutAppend(r, wake), Putting(r), from, moves);
    moves' := moves + [Act(PutAppend(r, wake))];
    assert acc.View().reqs[r].put == acc.reqs[r].put;
  }

  lemma AppendOk(s: State, r: nat, wake: set<nat>)
    requires Inv(s) && r < |s.reqs| && s.reqs[r].put == Gated
    requires |s.pool.log| < P.MAX_TASKS && P.SignalOk(s.pool.workers, wake)
    ensures Next(s, PutAppend(r, wake)).Some?
    ensures r < |Next(s, PutAppend(r, wake)).value.reqs| && Next(s, PutAppend(r, wake)).value.reqs[r].put == Enqueued
  {
  }

  method Mark(acc: MmapAccessor, r: nat, ghost from: nat, ghost moves: seq<Move<Event>>)
    requires acc.Run().Some? && r < |acc.reqs| && acc.reqs[r].put == Enqueued
    requires TracedFrom(acc.states, acc.steps, from, moves, Player(Putting(r)))
    modifies acc.Repr
    ensures RanOn(acc) && r < |acc.reqs| && acc.reqs[r].put == Put && acc.reqs[r].status == Submitted
    ensures Listed(acc.View(), r) && PutIn(acc.View(), r)
    ensures TracedFrom(acc.states, acc.steps, from, moves + [Act(PutMark(r))], Player(Putting(r)))
  {
    hide TracedFrom;
    ghost var s := acc.View();
    Take(acc, PutMark(r), Putting(r), from, moves);
    Since(acc, |acc.steps|);
    assert acc.View().reqs[r] == RequestStep(s, PutMark(r));
    assert r in acc.View().pool.slots;
  }

  /** The moves of put: the gate, and for a request let through the append and the mark, with the others in between. */
  ghost predicate PutMoves(moves: seq<Move<Event>>, r: nat, ok: bool, beforeAppend: seq<Event>, beforeMark: seq<Event>) {
    if ok then
      && |moves| == 5 && moves[0] == Act(PutGate(r)) && moves[1] == Others(beforeAppend) && IsAppendOf(moves[2], r)
      && moves[3] == Others(beforeMark) && moves[4] == Act(PutMark(r))
    else moves == [Act(PutGate(r))]
  }

  /** What put does with a request that has passed the gate. */
  method PutThrough(acc: MmapAccessor, r: nat, beforeAppend: seq<Event>, beforeMark: seq<Event>, ghost from: nat,
                    ghost moves: seq<Move<Event>>)
    returns (ghost moves': seq<Move<Event>>)
    requires acc.Run().Some? && r < |acc.reqs| && acc.reqs[r].put == Gated && moves == [Act(PutGate(r))]
    requires |acc.distributor.log| + |beforeAppend| < P.MAX_TASKS
    requires TracedFrom(acc.states, acc.steps, from, moves, Player(Putting(r)))
    modifies acc.Repr
    ensures RanOn(acc) && r < |acc.reqs| && acc.reqs[r].status == Submitted && acc.reqs[r].put == Put
    ensures Listed(acc.View(), r) && PutIn(acc.View(), r)
    ensures TracedFrom(acc.states, acc.steps, from, moves', Player(Putting(r)))
    ensures PutMoves(moves', r, true, beforeAppend, beforeMark)
  {
    hide MmapAccessor.Run, MmapAccessor.View, Listed, PutIn, TracedFrom, IsAppendOf;
    PutPause(acc, r, beforeAppend, from, moves);
    moves' := Append(acc, r, from, moves + [Others(beforeAppend)]);
    PutPause(acc, r, beforeMark, from, moves');
    moves' := moves' + [Others(beforeMark)];
    Mark(acc, r, from, moves');
    moves' := moves' + [Act(PutMark(r))];
  }

  /** mmap_put_request: true means RET_OK. Whatever the worker has made of the task between the append and the last line,
      the request leaves put as SUBMITTED. */
  method PutRequest(acc: MmapAccessor, r: nat, beforeAppend: seq<Event>, beforeMark: seq<Event>)
    returns (ok: bool, ghost moves: seq<Move<Event>>)
    requires acc.Run().Some? && r < |acc.reqs| && acc.reqs[r].put == NotPut
    requires acc.reqs[r].dir == Read ==> acc.reqs[r].buf.Caller?
    requires |acc.distributor.log| + |beforeAppend| < P.MAX_TASKS
    modifies acc.Repr
    ensures RanOn(acc) && r < |acc.reqs| && ok == old(acc.distributor.isRunning)
    ensures ok ==> acc.reqs[r].status == Submitted && Listed(acc.View(), r) && PutIn(acc.View(), r)
    ensures !ok ==> acc.reqs[r].status == Cancel && acc.reqs[r].put == Rejected && Owns(acc.View(), OfRequest(r)).None?
    ensures !ok && acc.reqs[r].buf.Mapped? ==> acc.reqs[r].buf.addr !in acc.maps
    ensures TracedFrom(acc.states, acc.steps, |old(acc.steps)|, moves, Player(Putting(r)))
    ensures PutMoves(moves, r, ok, beforeAppend, beforeMark)
  {
    hide MmapAccessor.Run, MmapAccessor.View, Listed, PutIn, Owns, TracedFrom, IsAppendOf;
    ghost var from := |acc.steps|;
    ok := acc.distributor.isRunning;
    moves := Gate(acc, r);
    if ok {
      moves := PutThrough(acc, r, beforeAppend, beforeMark, from, moves);
    }
  }

  // ---------------------------------------------------------------- releaseAll

  /** Closing the pool, sending the sentinels and joining the workers are left to the thread inside releaseAll. */
  lemma ReleaseStateStays(s: State, e: Event)
    requires Enabled(s, e) && !Own(Releasing, e)
    ensures var p, p' := s.pool, Step(s, e).pool;
            p'.isRunning == p.isRunning && p'.sentinels == p.sentinels && p'.joined == p.joined && |p.log| <= |p'.log|
  {
    hide MapsStep, FdsStep, FilesStep, WaitersStep, RequestsStep;
  }

  lemma {:induction false} ReleaseStateInRun(ss: seq<State>, es: seq<Event>, from: nat, to: nat)
    requires IsRun(ss, es) && from <= to <= |es|
    requires forall k | from <= k < to :: !Own(Releasing, es[k])
    ensures var p, p' := ss[from].pool, ss[to].pool;
            p'.isRunning == p.isRunning && p'.sentinels == p.sentinels && p'.joined == p.joined && |p.log| <= |p'.log|
  {
    if from < to {
      ReleaseStateInRun(ss, es, from, to - 1);
      assert StepAt(ss, es, to - 1);
      ReleaseStateStays(ss[to - 1], es[to - 1]);
    }
  }

  /** The accessor is being released: so many sentinels have been sent, so many workers joined. */
  ghost predicate ReleasedTo(s: State, sent: nat, joined: nat) {
    !s.pool.isRunning && |s.pool.sentinels| == sent && s.pool.joined == joined
  }

  /** The others run while the releasing thread waits or is between two calls. */
  method ReleasePause(acc: MmapAccessor, es: seq<Event>, ghost sent: nat, ghost joined: nat, ghost from: nat,
                      ghost moves: seq<Move<Event>>)
    requires acc.Run().Some? && ReleasedTo(acc.View(), sent, joined)
    requires TracedFrom(acc.states, acc.steps, from, moves, Player(Thread.Releasing))
    modifies acc.Repr
    ensures RanOn(acc) && ReleasedTo(acc.View(), sent, joined)
    ensures TracedFrom(acc.states, acc.steps, from, moves + [Others(es)], Player(Thread.Releasing))
  {
    hide TracedFrom;
    ghost var at := |acc.steps|;
    LetRun(acc, Thread.Releasing, es, from, moves);
    Since(acc, at);
    ReleaseStateInRun(acc.states, acc.steps, at, |acc.steps|);
  }

  lemma Closes(s: State)
    requires Inv(s) && s.pool.isRunning && |s.pool.log| > 0
    ensures Next(s, ReleaseBegin).Some? && ReleasedTo(Next(s, ReleaseBegin).value, 0, 0)
  {
    hide Core;
    NotYetReleased(s);
  }

  lemma NotYetReleased(s: State)
    requires Core(s) && s.pool.isRunning
    ensures s.pool.sentinels == [] && s.pool.joined == 0
  {
  }

  method CloseGate(acc: MmapAccessor) returns (ghost moves: seq<Move<Event>>)
    requires acc.Run().Some? && acc.View().pool.isRunning && |acc.View().pool.log| > 0
    modifies acc.Repr
    ensures RanOn(acc) && ReleasedTo(acc.View(), 0, 0)
    ensures moves == [Act(ReleaseBegin)]
    ensures TracedFrom(acc.states, acc.steps, |old(acc.steps)|, moves, Player(Thread.Releasing))
  {
    hide Inv, Onward, ReleasedTo, Lifecycle.Next, TracedFrom;
    ghost var from := |acc.steps|;
    Since(acc, from);
    Closes(acc.View());
    NothingYet(acc.states, acc.steps, Player(Thread.Releasing));
    Take(acc, ReleaseBegin, Thread.Releasing, from, []);
    moves := [Act(ReleaseBegin)];
    assert [] + moves == moves;
  }

  lemma Sends(s: State, wake: set<nat>)
    requires !s.pool.isRunning && |s.pool.sentinels| < P.THREAD_POOL_SIZE && P.SignalOk(s.pool.workers, wake)
    ensures Next(s, SendSentinel(wake)).Some?
    ensures ReleasedTo(Next(s, SendSentinel(wake)).value, |s.pool.sentinels| + 1, s.pool.joined)
  {
  }

  ghost predicate IsSend(m: Move<Event>) {
    m.Act? && m.e.SendSentinel?
  }

  method Send(acc: MmapAccessor, ghost sent: nat, ghost from: nat, ghost moves: seq<Move<Event>>)
    returns (ghost moves': seq<Move<Event>>)
    requires acc.Run().Some? && ReleasedTo(acc.View(), sent, 0) && sent < P.THREAD_POOL_SIZE
    requires TracedFrom(acc.states, acc.steps, from, moves, Player(Thread.Releasing))
    modifies acc.Repr
    ensures RanOn(acc) && ReleasedTo(acc.View(), sent + 1, 0)
    ensures TracedFrom(acc.states, acc.steps, from, moves', Player(Thread.Releasing))
    ensures |moves'| == |moves| + 1 && moves'[..|moves|] == moves && IsSend(moves'[|moves|])
  {
    hide TracedFrom;
    var wake := Signalled(P.Sleepers(acc.distributor.workers));
    Sends(acc.View(), wake);
    Take(acc, SendSentinel(wake), Thread.Releasing, from, moves);
    moves' := moves + [Act(SendSentinel(wake))];
  }

  lemma Joins(s: State)
    requires !s.pool.isRunning && |s.pool.sentinels| == P.THREAD_POOL_SIZE && s.pool.joined < P.THREAD_POOL_SIZE
    requires s.pool.joined < |s.pool.workers| && s.pool.workers[s.pool.joined].phase.Exited?
    ensures Next(s, JoinWorker).Some?
    ensures ReleasedTo(Next(s, JoinWorker).value, P.THREAD_POOL_SIZE, s.pool.joined + 1)
  {
  }

  /** Joins only, and the others in between. */
  ghost predicate JoinMoves(moves: seq<Move<Event>>) {
    forall i | 0 <= i < |moves| && moves[i].Act? :: moves[i].e == JoinWorker
  }

  method JoinNow(acc: MmapAccessor, w: nat, ghost from: nat, ghost moves: seq<Move<Event>>)
    requires acc.Run().Some? && ReleasedTo(acc.View(), P.THREAD_POOL_SIZE, w) && w < P.THREAD_POOL_SIZE
    requires w < |acc.distributor.workers| && acc.distributor.workers[w].phase.Exited?
    requires TracedFrom(acc.states, acc.steps, from, moves, Player(Thread.Releasing))
    modifies acc.Repr
    ensures RanOn(acc) && ReleasedTo(acc.View(), P.THREAD_POOL_SIZE, w + 1)
    ensures TracedFrom(acc.states, acc.steps, from, moves + [Act(JoinWorker)], Player(Thread.Releasing))
  {
    hide TracedFrom, Lifecycle.Next;
    Joins(acc.View());
    Take(acc, JoinWorker, Thread.Releasing, from, moves);
  }

  /** pthread_join of worker w: it returns once the worker has exited. */
  method JoinNext(acc: MmapAccessor, w: nat, schedule: seq<seq<Event>>, start: nat, ghost from: nat,
                  ghost moves: seq<Move<Event>>)
    returns (done: bool, next: nat, ghost more: seq<Move<Event>>)
    requires acc.Run().Some? && ReleasedTo(acc.View(), P.THREAD_POOL_SIZE, w)
    requires w < P.THREAD_POOL_SIZE && start <= |schedule|
    requires TracedFrom(acc.states, acc.steps, from, moves, Player(Thread.Releasing))
    modifies acc.Repr
    ensures RanOn(acc) && start <= next <= |schedule|
    ensures ReleasedTo(acc.View(), P.THREAD_POOL_SIZE, if done then w + 1 else w)
    ensures !done ==> next == |schedule| && w < |acc.distributor.workers| && !acc.distributor.workers[w].phase.Exited?
    ensures TracedFrom(acc.states, acc.steps, from, moves + more, Player(Thread.Releasing))
    ensures JoinMoves(more) && OthersOf(more) == schedule[start..next]
  {
    hide TracedFrom, OthersOf, JoinMoves, ReleasedTo, MmapAccessor.Run, MmapAccessor.View;
    next, more := start, [];
    NoJoinYet(moves);
    FiveWorkers(acc);
    while !acc.distributor.workers[w].phase.Exited?
      invariant RanOn(acc) && start <= next <= |schedule| && ReleasedTo(acc.View(), P.THREAD_POOL_SIZE, w)
      invariant |acc.distributor.workers| == P.THREAD_POOL_SIZE
      invariant TracedFrom(acc.states, acc.steps, from, moves + more, Player(Thread.Releasing))
      invariant JoinMoves(more) && OthersOf(more) == schedule[start..next]
      decreases |schedule| - next
    {
      if next == |schedule| {
        return false, next, more;
      }
      ReleasePause(acc, schedule[next], P.THREAD_POOL_SIZE, w, from, moves + more);
      FiveWorkers(acc);
      JoinMoveOn(moves, more, Others(schedule[next]));
      more := more + [Others(schedule[next])];
      next := next + 1;
    }
    JoinNow(acc, w, from, moves + more);
    JoinMoveOn(moves, more, Act(JoinWorker));
    more := more + [Act(JoinWorker)];
    done := true;
  }

  lemma JoinMoveOn(moves: seq<Move<Event>>, more: seq<Move<Event>>, m: Move<Event>)
    requires JoinMoves(more) && (m.Act? ==> m.e == JoinWorker)
    ensures JoinMoves(more + [m]) && moves + more + [m] == moves + (more + [m])
    ensures OthersOf(more + [m]) == OthersOf(more) + if m.Act? then [] else [m.segment]
  {
    OneMove(more, m);
  }

  lemma NoJoinYet(moves: seq<Move<Event>>)
    ensures JoinMoves([]) && OthersOf<Event>([]) == [] && moves + [] == moves
  {
  }

  lemma FiveWorkers(acc: MmapAccessor)
    requires acc.Run().Some?
    ensures |acc.distributor.workers| == P.THREAD_POOL_SIZE
  {
    Since(acc, |acc.steps|);
    assert |acc.View().pool.workers| == P.THREAD_POOL_SIZE;
  }

  /** What releaseAll leaves behind. Without a put behind the fifth sentinel nothing at all is left to do. */
  ghost predicate Released(ss: seq<State>, es: seq<Event>) {
    && |ss| == |es| + 1
    && var s := ss[|es|];
    && s.pool.joined == |s.pool.sentinels| == P.THREAD_POOL_SIZE && s.pool.busy == s.pool.idle == s.pool.alive == 0
    && (forall i | 0 <= i < |s.pool.log| && s.pool.log[i].task.Work? ::
          Shutdown.RunOnce(s.pool, i) <==> i < s.pool.sentinels[4])
    && (InTimeRun(ss, es) ==>
          && s.pool.Todo() == 0
          && (forall r | 0 <= r < |s.reqs| && s.reqs[r].Accepted() ::
                PlaceIn(s, r).Finished? && Owns(s, OfRequest(r)).None?)
          && (TimelyRun(ss, es) ==> forall r | 0 <= r < |s.reqs| && s.reqs[r].Accepted() :: Decided(ss, es, r)))
  }

  lemma JoinedMeansReleased(ss: seq<State>, es: seq<Event>)
    requires IsRun(ss, es) && ss[|es|].pool.joined == P.THREAD_POOL_SIZE
    ensures Released(ss, es)
  {
    InvThroughoutRun(ss, es, |es|);
    Shutdown.Drained(ss[|es|].pool);
    if InTimeRun(ss, es) {
      InTimeRunsDrain(ss, es, |es|);
      if TimelyRun(ss, es) {
        forall r | 0 <= r < |ss[|es|].reqs| && ss[|es|].reqs[r].Accepted()
          ensures Decided(ss, es, r)
        {
          ReleasedMeansDecided(ss, es, |es|, r);
          FinalIsDecided(ss, es, r);
        }
      }
    }
  }

  lemma AllJoined(acc: MmapAccessor)
    requires acc.Run().Some? && ReleasedTo(acc.View(), P.THREAD_POOL_SIZE, P.THREAD_POOL_SIZE)
    ensures Released(acc.states, acc.steps)
  {
    Since(acc, |acc.steps|);
    JoinedMeansReleased(acc.states, acc.steps);
  }

  /** The moves of the first part of releaseAll: isRunning is switched off, then the sentinels are sent, before each of which
      the others may run. */
  ghost predicate SendMoves(moves: seq<Move<Event>>, schedule: seq<seq<Event>>, n: nat) {
    && |moves| == 2 * n + 1 && moves[0] == Act(ReleaseBegin)
    && (forall i | 0 <= i < n :: moves[2 * i + 1] == Others(Segment(schedule, i)) && IsSend(moves[2 * i + 2]))
  }

  lemma OneMoreSent(moves: seq<Move<Event>>, moves': seq<Move<Event>>, schedule: seq<seq<Event>>, n: nat)
    requires SendMoves(moves, schedule, n) && |moves'| == |moves| + 2
    requires moves'[..|moves| + 1] == moves + [Others(Segment(schedule, n))] && IsSend(moves'[|moves| + 1])
    ensures SendMoves(moves', schedule, n + 1)
  {
    assert forall i | 0 <= i < |moves| :: moves'[i] == moves'[..|moves| + 1][i] == moves[i];
    assert moves'[|moves|] == moves'[..|moves| + 1][|moves|];
  }

  /** The moves of releaseAll: then the workers are joined. */
  ghost predicate ReleaseMoves(moves: seq<Move<Event>>, schedule: seq<seq<Event>>, done: bool) {
    var n := 2 * P.THREAD_POOL_SIZE + 1;
    var at := if P.THREAD_POOL_SIZE < |schedule| then P.THREAD_POOL_SIZE else |schedule|;
    && n <= |moves| && SendMoves(moves[..n], schedule, P.THREAD_POOL_SIZE) && JoinMoves(moves[n..])
    && OthersOf(moves[n..]) <= schedule[at..] && (!done ==> OthersOf(moves[n..]) == schedule[at..])
  }

  lemma AreReleaseMoves(first: seq<Move<Event>>, joins: seq<Move<Event>>, schedule: seq<seq<Event>>, next: nat, done: bool)
    requires SendMoves(first, schedule, P.THREAD_POOL_SIZE) && JoinMoves(joins)
    requires var at := if P.THREAD_POOL_SIZE < |schedule| then P.THREAD_POOL_SIZE else |schedule|;
             at <= next <= |schedule| && OthersOf(joins) == schedule[at..next] && (!done ==> next == |schedule|)
    ensures ReleaseMoves(first + joins, schedule, done)
  {
    var n := 2 * P.THREAD_POOL_SIZE + 1;
    assert (first + joins)[..n] == first && (first + joins)[n..] == joins;
  }

  /** The second loop of mmap_release_all_resources. */
  method JoinAll(acc: MmapAccessor, schedule: seq<seq<Event>>, start: nat, ghost from: nat, ghost moves: seq<Move<Event>>)
    returns (done: bool, ghost w: nat, ghost next: nat, ghost joins: seq<Move<Event>>)
    requires acc.Run().Some? && ReleasedTo(acc.View(), P.THREAD_POOL_SIZE, 0) && start <= |schedule|
    requires TracedFrom(acc.states, acc.steps, from, moves, Player(Thread.Releasing))
    modifies acc.Repr
    ensures RanOn(acc) && start <= next <= |schedule|
    ensures if done then w == P.THREAD_POOL_SIZE
            else next == |schedule| && w < |acc.distributor.workers| && !acc.distributor.workers[w].phase.Exited?
    ensures ReleasedTo(acc.View(), P.THREAD_POOL_SIZE, w)
    ensures TracedFrom(acc.states, acc.steps, from, moves + joins, Player(Thread.Releasing))
    ensures JoinMoves(joins) && OthersOf(joins) == schedule[start..next]
  {
    hide MmapAccessor.Run, MmapAccessor.View, ReleasedTo, TracedFrom, OthersOf, JoinMoves;
    var at: nat := start;
    joins := [];
    NoJoinYet(moves);
    for v := 0 to P.THREAD_POOL_SIZE
      invariant RanOn(acc) && ReleasedTo(acc.View(), P.THREAD_POOL_SIZE, v) && start <= at <= |schedule|
      invariant TracedFrom(acc.states, acc.steps, from, moves + joins, Player(Thread.Releasing))
      invariant JoinMoves(joins) && OthersOf(joins) == schedule[start..at]
    {
      ghost var before, more := at, [];
      done, at, more := JoinNext(acc, v, schedule, at, from, moves + joins);
      assert moves + joins + more == moves + (joins + more);
      OthersOfParts(joins, more);
      assert schedule[start..before] + schedule[before..at] == schedule[start..at];
      JoinMovesOn(joins, more);
      joins := joins + more;
      w, next := v, at;
      if !done {
        return;
      }
    }
    done, w, next := true, P.THREAD_POOL_SIZE, at;
  }

  lemma JoinMovesOn(joins: seq<Move<Event>>, more: seq<Move<Event>>)
    requires JoinMoves(joins) && JoinMoves(more)
    ensures JoinMoves(joins + more)
  {
  }

  /** mmap_release_all_resources, called once. It does nothing if no task was ever submitted. If the schedule ends first,
      the thread waits for a worker that has not exited. */
  method ReleaseAll(acc: MmapAccessor, schedule: seq<seq<Event>>) returns (done: bool, ghost moves: seq<Move<Event>>)
    requires acc.Run().Some? && acc.View().pool.isRunning
    modifies acc.Repr
    ensures RanOn(acc)
    ensures old(acc.View()).pool.log == [] ==> done && moves == [] && acc.View() == old(acc.View())
    ensures old(acc.View()).pool.log != [] && done ==> Released(acc.states, acc.steps)
    ensures !done ==> exists w: nat ::
              w < |acc.distributor.workers| && !acc.distributor.workers[w].phase.Exited? &&
              ReleasedTo(acc.View(), P.THREAD_POOL_SIZE, w)
    ensures TracedFrom(acc.states, acc.steps, |old(acc.steps)|, moves, Player(Thread.Releasing))
    ensures old(acc.View()).pool.log != [] ==> ReleaseMoves(moves, schedule, done)
  {
    hide MmapAccessor.Run, MmapAccessor.View, ReleasedTo, Released, Inv, Onward, TracedFrom, ReleaseMoves, SendMoves, OthersOf;
    hide JoinMoves;
    ghost var from := |acc.steps|;
    RunLength(acc);
    NothingYet(acc.states, acc.steps, Player(Thread.Releasing));
    var n := Total(acc);
    if n == 0 {
      return true, [];
    }
    moves := CloseGate(acc);
    JustClosed(moves, schedule);
    for i := 0 to P.THREAD_POOL_SIZE
      invariant RanOn(acc) && ReleasedTo(acc.View(), i, 0)
      invariant TracedFrom(acc.states, acc.steps, from, moves, Player(Thread.Releasing)) && SendMoves(moves, schedule, i)
    {
      ReleasePause(acc, Segment(schedule, i), i, 0, from, moves);
      ghost var before := moves;
      moves := Send(acc, i, from, moves + [Others(Segment(schedule, i))]);
      OneMoreSent(before, moves, schedule, i);
    }
    var start: nat := if P.THREAD_POOL_SIZE < |schedule| then P.THREAD_POOL_SIZE else |schedule|;
    ghost var w, next, joins;
    done, w, next, joins := JoinAll(acc, schedule, start, from, moves);
    AreReleaseMoves(moves, joins, schedule, next, done);
    moves := moves + joins;
    if done {
      AllJoined(acc);
    }
  }

  lemma JustClosed(moves: seq<Move<Event>>, schedule: seq<seq<Event>>)
    requires moves == [Act(ReleaseBegin)]
    ensures SendMoves(moves, schedule, 0)
  {
  }
}
