// The threads inside waitRequest and waitAll: with one waiter per request no wake-up is lost, and a wait ends only with
// a final status.

module Waiters {
  import opened Common
  import P = PoolProtocol
  import opened Lifecycle
  import opened RequestInvariants
  import opened Runs
  import opened Release
  import opened Statuses

  /** The caller's side: no two threads wait for the same request at a time. */
  ghost predicate Sole(s: State, e: Event) {
    e.WaitBegin? ==> forall t | 0 <= t < |s.waiters| :: !s.waiters[t].On(e.r)
  }

  ghost predicate OneEach(s: State) {
    && (forall t | 0 <= t < |s.waiters| && !s.waiters[t].phase.Outside? :: s.waiters[t].phase.r < |s.reqs|)
    && (forall t, u | 0 <= t < u < |s.waiters| && !s.waiters[t].phase.Outside? && !s.waiters[u].phase.Outside? ::
          s.waiters[t].phase.r != s.waiters[u].phase.r)
  }

  /** No two threads are blocked on the same request. */
  ghost predicate OneBlocked(s: State) {
    forall t, u | 0 <= t < u < |s.waiters| && s.waiters[t].phase.Blocked? && s.waiters[u].phase.Blocked? ::
      s.waiters[t].phase.r != s.waiters[u].phase.r
  }

  /** A thread blocked on a request still has something to wait for. */
  ghost predicate SleepersInv(s: State) {
    forall t | 0 <= t < |s.waiters| && s.waiters[t].phase.Blocked? ::
      s.waiters[t].phase.r < |s.reqs| && s.reqs[s.waiters[t].phase.r].status == Submitted
  }

  /** The request whose condition variable a step signals, and the threads it wakes. */
  ghost function Signal(s: State, e: Event): Option<(nat, set<nat>)>
    requires Guard(s, e)
  {
    match e
    case CancelRequest(r, wake) => Some((r, wake))
    case CancelAllSection(r, wake) => Some((r, wake))
    case TimerFire(t, wake) => Some((s.waiters[t].phase.r, wake))
    case Publish(w, wake) => Some((Job(s, w), wake))
    case _ => None
  }

  /** Whoever ends SUBMITTED signals isFinished in the same section. */
  lemma EndOfSubmittedIsSignalled(s: State, e: Event, r: nat)
    requires Core(s) && Enabled(s, e) && r < |s.reqs|
    requires s.reqs[r].status == Submitted && NextRequest(s, e, r).status != Submitted
    ensures Signal(s, e).Some? && Signal(s, e).value.0 == r && SignalOk(s.waiters, r, Signal(s, e).value.1)
  {
    hide Core, RequestOk;
    assert Target(s, e) == Some(r);
    SubmittedIsPut(s, r);
    EndIsSignalled(s, e, r);
  }

  lemma EndIsSignalled(s: State, e: Event, r: nat)
    requires Guard(s, e) && Target(s, e) == Some(r) && s.reqs[r].put.Put?
    requires s.reqs[r].status == Submitted && RequestStep(s, e).status != Submitted
    ensures Signal(s, e).Some? && Signal(s, e).value.0 == r && SignalOk(s.waiters, r, Signal(s, e).value.1)
  {
  }


  ghost function Woken(x: Waiter, t: nat, signal: Option<(nat, set<nat>)>): Waiter {
    if signal.Some? && t in signal.value.1 && BlockedOn(x, signal.value.0) then x.(phase := AtLock(signal.value.0)) else x
  }

  /** What a step makes of one waiting thread. */
  ghost function NextWaiter(s: State, e: Event, t: nat): Waiter
    requires Guard(s, e) && t < |s.waiters|
  {
    var x := s.waiters[t];
    match e
    case WaitBegin(u, r, timed) => if u == t then Waiter(AtLock(r), if timed then Armed else NoTimer) else x
    case WaitCheck(u) =>
      if u != t then x
      else x.(phase := if s.reqs[x.phase.r].status == Submitted then Blocked(x.phase.r) else Leaving(x.phase.r))
    case WaitSpurious(u) => if u == t then x.(phase := AtLock(x.phase.r)) else x
    case WaitEnd(u) => if u == t then Waiter(Outside, NoTimer) else x
    case TimerFire(u, _) =>
      var y := Woken(x, t, Signal(s, e));
      if u == t then y.(timer := Fired) else y
    case _ => Woken(x, t, Signal(s, e))
  }

  lemma WaiterAfterStep(s: State, e: Event, t: nat)
    requires Enabled(s, e) && t < |s.waiters|
    ensures |Step(s, e).waiters| == |s.waiters| && Step(s, e).waiters[t] == NextWaiter(s, e, t)
  {
    assert Step(s, e).waiters == WaitersStep(s, e);
  }

  lemma SoleStepKeepsOneEach(s: State, e: Event)
    requires OneEach(s) && Enabled(s, e) && Sole(s, e)
    ensures OneEach(Step(s, e))
  {
    var s' := Step(s, e);
    AcceptedAfterStep(s, e);
    assert |s'.waiters| == |s.waiters| by {
      if s.waiters != [] { WaiterAfterStep(s, e, 0); } else { assert s'.waiters == WaitersStep(s, e); }
    }
    forall t | 0 <= t < |s.waiters|
      ensures s'.waiters[t] == NextWaiter(s, e, t)
      ensures !s'.waiters[t].phase.Outside? ==>
                (e.WaitBegin? && e.t == t && s'.waiters[t].phase.r == e.r) ||
                (!s.waiters[t].phase.Outside? && s'.waiters[t].phase.r == s.waiters[t].phase.r)
    {
      WaiterAfterStep(s, e, t);
    }
  }

  /** A thread that stays blocked has seen no signal: being the only one, it would have been the one woken. */
  lemma SleeperWaitsOn(s: State, e: Event, t: nat)
    requires Core(s) && OneBlocked(s) && SleepersInv(s) && Enabled(s, e) && t < |s.waiters|
    requires NextWaiter(s, e, t).phase.Blocked?
    ensures var r := NextWaiter(s, e, t).phase.r; r < |s.reqs| && NextRequest(s, e, r).status == Submitted
  {
    var r := NextWaiter(s, e, t).phase.r;
    SleeperKnown(s, e, t);
    if NextRequest(s, e, r).status != Submitted {
      EndOfSubmittedIsSignalled(s, e, r);
      StaysBlocked(s, e, t);
      OnlyWaiterWoken(s, e, t, r);
      assert false;
    }
  }

  lemma SleeperKnown(s: State, e: Event, t: nat)
    requires SleepersInv(s) && Enabled(s, e) && t < |s.waiters| && NextWaiter(s, e, t).phase.Blocked?
    ensures var r := NextWaiter(s, e, t).phase.r; r < |s.reqs| && s.reqs[r].status == Submitted
  {
  }

  /** A step that ends a SUBMITTED status blocks nobody. */
  lemma StaysBlocked(s: State, e: Event, t: nat)
    requires Enabled(s, e) && t < |s.waiters| && Signal(s, e).Some? && NextWaiter(s, e, t).phase.Blocked?
    ensures s.waiters[t].phase == NextWaiter(s, e, t).phase
    ensures !(t in Signal(s, e).value.1 && BlockedOn(s.waiters[t], Signal(s, e).value.0))
  {
  }

  lemma OnlyWaiterWoken(s: State, e: Event, t: nat, r: nat)
    requires OneBlocked(s) && Guard(s, e) && t < |s.waiters| && Signal(s, e).Some? && Signal(s, e).value.0 == r
    requires SignalOk(s.waiters, r, Signal(s, e).value.1) && BlockedOn(s.waiters[t], r)
    ensures t in Signal(s, e).value.1
  {
    assert t in BlockedThreads(s.waiters, r);
    var u :| u in Signal(s, e).value.1;
    assert u in BlockedThreads(s.waiters, r);
    assert s.waiters[u].phase.r == s.waiters[t].phase.r;
  }

  lemma StepKeepsSleepers(s: State, e: Event)
    requires Core(s) && OneBlocked(s) && SleepersInv(s) && Enabled(s, e)
    ensures SleepersInv(Step(s, e))
  {
    var s' := Step(s, e);
    assert s'.waiters == WaitersStep(s, e);
    forall t | 0 <= t < |s'.waiters| && s'.waiters[t].phase.Blocked?
      ensures s'.waiters[t].phase.r < |s'.reqs| && s'.reqs[s'.waiters[t].phase.r].status == Submitted
    {
      assert |s'.waiters| == |s.waiters|;
      WaiterAfterStep(s, e, t);
      SleeperWaitsOn(s, e, t);
      RequestAfterStep(s, e, s'.waiters[t].phase.r);
    }
  }

  /** Of two threads blocked on one request, a cancel may wake one only; the other stays blocked on a finished request. */
  lemma SecondIsForgotten(s: State, t: nat, u: nat, r: nat)
    requires t < |s.waiters| && u < |s.waiters| && t != u && BlockedOn(s.waiters[t], r) && BlockedOn(s.waiters[u], r)
    requires r < |s.reqs| && s.reqs[r].status == Submitted
    ensures var e := CancelRequest(r, {t});
            && Enabled(s, e)
            && |Step(s, e).waiters| == |s.waiters| && Step(s, e).waiters[u].phase == Blocked(r)
            && |Step(s, e).reqs| == |s.reqs| && Step(s, e).reqs[r].status == Cancel
            && !SleepersInv(Step(s, e))
  {
    assert t in BlockedThreads(s.waiters, r);
    var s' := Step(s, CancelRequest(r, {t}));
    assert s'.waiters[u] == s.waiters[u];
    assert s'.reqs[r] == s.reqs[r].CancelUnlessDone();
  }

  /** The next step can forget a waiter if and only if two threads are blocked on the same request. */
  lemma ForgettingNeedsTwo(s: State)
    requires Core(s) && SleepersInv(s)
    ensures OneBlocked(s) <==> forall e | Enabled(s, e) :: SleepersInv(Step(s, e))
  {
    hide Core, Lifecycle.Enabled, Lifecycle.Step;
    if OneBlocked(s) {
      forall e | Enabled(s, e)
        ensures SleepersInv(Step(s, e))
      {
        StepKeepsSleepers(s, e);
      }
    } else {
      var t, u :| 0 <= t < u < |s.waiters| && s.waiters[t].phase.Blocked? && s.waiters[u].phase.Blocked?
                  && s.waiters[t].phase.r == s.waiters[u].phase.r;
      SecondIsForgotten(s, t, u, s.waiters[t].phase.r);
    }
  }

  /** No wake-up of a waiter is lost: in every run in which no two threads are ever blocked on one request, a thread blocked
      on isFinished without a pending signal waits for a request that is still SUBMITTED. */
  lemma {:induction false} NoWaiterForgotten(ss: seq<State>, es: seq<Event>, k: nat)
    requires IsRun(ss, es) && k <= |es| && forall j | 0 <= j < k :: OneBlocked(ss[j])
    ensures SleepersInv(ss[k])
  {
    hide Core, OneBlocked, Lifecycle.Enabled, Lifecycle.Step;
    if k > 0 {
      NoWaiterForgotten(ss, es, k - 1);
      InvThroughoutRun(ss, es, k - 1);
      assert StepAt(ss, es, k - 1);
      StepKeepsSleepers(ss[k - 1], es[k - 1]);
    }
  }

  /** That condition is exact: throughout a run every step any thread could take next leaves the waiters in order, if and
      only if no two threads are ever blocked on one request. */
  lemma NoWaiterForgottenIff(ss: seq<State>, es: seq<Event>)
    requires IsRun(ss, es)
    ensures (forall k | 0 <= k < |ss| :: OneBlocked(ss[k])) <==>
            (forall k | 0 <= k < |ss| :: SleepersInv(ss[k]) && forall e | Enabled(ss[k], e) :: SleepersInv(Step(ss[k], e)))
  {
    if forall k | 0 <= k < |ss| :: OneBlocked(ss[k]) {
      forall k | 0 <= k < |ss|
        ensures SleepersInv(ss[k]) && forall e | Enabled(ss[k], e) :: SleepersInv(Step(ss[k], e))
      {
        NoWaiterForgotten(ss, es, k);
        InvThroughoutRun(ss, es, k);
        ForgettingNeedsTwo(ss[k]);
      }
    }
    if forall k | 0 <= k < |ss| :: SleepersInv(ss[k]) && forall e | Enabled(ss[k], e) :: SleepersInv(Step(ss[k], e)) {
      forall k | 0 <= k < |ss|
        ensures OneBlocked(ss[k])
      {
        InvThroughoutRun(ss, es, k);
        ForgettingNeedsTwo(ss[k]);
      }
    }
  }

  ghost predicate SoleRun(ss: seq<State>, es: seq<Event>) {
    IsRun(ss, es) && forall k {:trigger Sole(ss[k], es[k])} | 0 <= k < |es| :: Sole(ss[k], es[k])
  }

  /** A caller who never lets two threads wait for one request meets the condition. */
  lemma {:induction false} SoleRunsHaveOneEach(ss: seq<State>, es: seq<Event>, k: nat)
    requires SoleRun(ss, es) && k <= |es|
    ensures OneEach(ss[k]) && OneBlocked(ss[k])
  {
    if k > 0 {
      SoleRunsHaveOneEach(ss, es, k - 1);
      assert StepAt(ss, es, k - 1) && Sole(ss[k - 1], es[k - 1]);
      SoleStepKeepsOneEach(ss[k - 1], es[k - 1]);
    }
  }

  lemma SoleRunsForgetNobody(ss: seq<State>, es: seq<Event>, k: nat)
    requires SoleRun(ss, es) && k <= |es|
    ensures SleepersInv(ss[k])
  {
    forall j | 0 <= j < k
      ensures OneBlocked(ss[j])
    {
      SoleRunsHaveOneEach(ss, es, j);
    }
    NoWaiterForgotten(ss, es, k);
  }

  // ---------------------------------------------------------------- what a wait ends with

  /** The step of thread t's own wait or timer. */
  predicate OfWait(e: Event, t: nat) {
    (e.WaitBegin? || e.WaitEnd? || e.TimerFire?) && e.t == t
  }

  /** Step j begins a timed wait of thread t for request r, which has neither ended nor timed out before step k. */
  ghost predicate ArmedBy(es: seq<Event>, k: nat, t: nat, r: nat, j: nat) {
    j < k <= |es| && es[j] == WaitBegin(t, r, true) && forall i | j < i < k :: !OfWait(es[i], t)
  }

  lemma ArmedStep(s: State, e: Event, t: nat)
    requires Enabled(s, e) && t < |s.waiters|
    requires s.waiters[t].timer == Armed ==> !s.waiters[t].phase.Outside?
    ensures var x, x' := s.waiters[t], NextWaiter(s, e, t);
            x'.timer == Armed ==>
              && !x'.phase.Outside?
              && (e == WaitBegin(t, x'.phase.r, true) || (!OfWait(e, t) && x.timer == Armed && x'.phase.r == x.phase.r))
  {
  }

  lemma {:induction false} ArmedTimersBelongToWaits(ss: seq<State>, es: seq<Event>, k: nat, t: nat)
    requires IsRun(ss, es) && k <= |es| && t < |ss[k].waiters| && ss[k].waiters[t].timer == Armed
    ensures !ss[k].waiters[t].phase.Outside?
    ensures exists j: nat :: ArmedBy(es, k, t, ss[k].waiters[t].phase.r, j)
  {
    if k > 0 {
      var s, e := ss[k - 1], es[k - 1];
      assert StepAt(ss, es, k - 1);
      assert ss[k].waiters == WaitersStep(s, e) && |ss[k].waiters| == |s.waiters|;
      WaiterAfterStep(s, e, t);
      if s.waiters[t].timer == Armed {
        ArmedTimersBelongToWaits(ss, es, k - 1, t);
      }
      ArmedStep(s, e, t);
      var r := ss[k].waiters[t].phase.r;
      if e == WaitBegin(t, r, true) {
        assert ArmedBy(es, k, t, r, k - 1);
      } else {
        var j: nat :| ArmedBy(es, k - 1, t, r, j);
        assert ArmedBy(es, k, t, r, j);
      }
    }
  }

  lemma TimerEffect(s: State, e: Event, r: nat)
    requires Enabled(s, e) && e.TimerFire? && r < |s.reqs|
    ensures s.waiters[e.t].timer == Armed
    ensures NextRequest(s, e, r) ==
            if s.waiters[e.t].On(r) && s.reqs[r].status == Submitted then s.reqs[r].Set(Cancel) else s.reqs[r]
  {
  }

  /** A timeout thread acts at most once, within the timed wait that created it: between the beginning of that wait and its
      join it may turn the awaited request from SUBMITTED into CANCEL, and in no run does it change anything else. */
  lemma TimersFireInTheirWait(ss: seq<State>, es: seq<Event>, k: nat)
    requires IsRun(ss, es) && k < |es| && es[k].TimerFire?
    ensures es[k].t < |ss[k].waiters| && !ss[k].waiters[es[k].t].phase.Outside?
    ensures exists j: nat :: ArmedBy(es, k, es[k].t, ss[k].waiters[es[k].t].phase.r, j)
    ensures |ss[k + 1].reqs| == |ss[k].reqs|
    ensures forall r | 0 <= r < |ss[k].reqs| ::
              ss[k + 1].reqs[r] == if r == ss[k].waiters[es[k].t].phase.r && ss[k].reqs[r].status == Submitted
                                   then ss[k].reqs[r].Set(Cancel) else ss[k].reqs[r]
  {
    assert StepAt(ss, es, k);
    AcceptedAfterStep(ss[k], es[k]);
    ArmedTimersBelongToWaits(ss, es, k, es[k].t);
    forall r | 0 <= r < |ss[k].reqs|
      ensures ss[k + 1].reqs[r] == NextRequest(ss[k], es[k], r)
    {
      RequestAfterStep(ss[k], es[k], r);
      TimerEffect(ss[k], es[k], r);
    }
  }

  /** A wait looks at a request only once its put has returned. */
  ghost predicate AfterPut(s: State, e: Event) {
    e.WaitCheck? && e.t < |s.waiters| && s.waiters[e.t].phase.AtLock? && s.waiters[e.t].phase.r < |s.reqs| ==>
      s.reqs[s.waiters[e.t].phase.r].Returned()
  }

  /** A thread about to leave its wait leaves a request that has ended. */
  ghost predicate LeaversDone(s: State) {
    forall t | 0 <= t < |s.waiters| && s.waiters[t].phase.Leaving? ::
      s.waiters[t].phase.r < |s.reqs| && s.reqs[s.waiters[t].phase.r].Ended()
  }

  lemma EndedUnlessSubmitted(s: State, r: nat)
    requires Core(s) && r < |s.reqs| && s.reqs[r].status != Submitted
    ensures s.reqs[r].Returned() <==> s.reqs[r].Ended()
  {
    assert StatusOk(s.reqs[r], PlaceIn(s, r));
  }

  lemma SubmittedIsPut(s: State, r: nat)
    requires Core(s) && r < |s.reqs| && s.reqs[r].status == Submitted
    ensures s.reqs[r].put.Put?
  {
    assert StatusOk(s.reqs[r], PlaceIn(s, r));
  }

  lemma Checks(s: State, t: nat)
    requires Enabled(s, WaitCheck(t))
    ensures var r, s' := s.waiters[t].phase.r, Step(s, WaitCheck(t));
            && r < |s.reqs| && s'.reqs == s.reqs && |s'.waiters| == |s.waiters|
            && s'.waiters[t].phase == if s.reqs[r].status == Submitted then Blocked(r) else Leaving(r)
  {
  }

  /** The look of a waiting thread at its request ends the wait rightly, or not at all, if and only if the request's put
      has returned. */
  lemma CheckEndsDecided(s: State, t: nat)
    requires Core(s) && Enabled(s, WaitCheck(t))
    ensures var r, s' := s.waiters[t].phase.r, Step(s, WaitCheck(t));
            && r < |s.reqs| && s'.reqs == s.reqs && |s'.waiters| == |s.waiters|
            && ((s'.waiters[t].phase.Leaving? ==> s'.reqs[r].Ended()) <==> s.reqs[r].Returned())
  {
    Checks(s, t);
    var r := s.waiters[t].phase.r;
    if s.reqs[r].status == Submitted {
      SubmittedIsPut(s, r);
    } else {
      EndedUnlessSubmitted(s, r);
    }
  }

  lemma LeaverCame(s: State, e: Event, t: nat)
    requires Enabled(s, e) && t < |s.waiters| && NextWaiter(s, e, t).phase.Leaving?
    ensures s.waiters[t].phase == NextWaiter(s, e, t).phase || e == WaitCheck(t)
  {
  }

  lemma LeaverStaysDone(s: State, e: Event, t: nat)
    requires Core(s) && LeaversDone(s) && Enabled(s, e) && AfterPut(s, e)
    requires t < |s.waiters| && Step(s, e).waiters[t].phase.Leaving?
    ensures var r, s' := Step(s, e).waiters[t].phase.r, Step(s, e); r < |s'.reqs| && s'.reqs[r].Ended()
  {
    hide Core, Lifecycle.Enabled, Lifecycle.Step, NextWaiter, NextRequest;
    WaiterAfterStep(s, e, t);
    LeaverCame(s, e, t);
    if e == WaitCheck(t) {
      CheckIsAtLock(s, t);
      Checks(s, t);
      CheckEndsDecided(s, t);
    } else {
      var r := s.waiters[t].phase.r;
      EndedStays(s, e, r);
      RequestAfterStep(s, e, r);
    }
  }

  lemma CheckIsAtLock(s: State, t: nat)
    requires Enabled(s, WaitCheck(t))
    ensures s.waiters[t].phase.AtLock?
  {
  }

  lemma StepKeepsLeavers(s: State, e: Event)
    requires Core(s) && LeaversDone(s) && Enabled(s, e)
    ensures LeaversDone(Step(s, e)) <==> AfterPut(s, e)
  {
    hide Core, Lifecycle.Enabled, Lifecycle.Step;
    SameWaiters(s, e);
    if AfterPut(s, e) {
      forall t | 0 <= t < |s.waiters| && Step(s, e).waiters[t].phase.Leaving?
        ensures var r, s' := Step(s, e).waiters[t].phase.r, Step(s, e); r < |s'.reqs| && s'.reqs[r].Ended()
      {
        LeaverStaysDone(s, e, t);
      }
    } else {
      CheckEndsDecided(s, e.t);
      Checks(s, e.t);
      assert Step(s, e).waiters[e.t].phase.Leaving?;
    }
  }

  lemma SameWaiters(s: State, e: Event)
    requires Enabled(s, e)
    ensures |Step(s, e).waiters| == |s.waiters|
  {
    assert Step(s, e).waiters == WaitersStep(s, e);
  }

  /** Throughout a run no thread leaves its wait before its request has ended, if and only if every look of a waiting
      thread comes after the put has returned. */
  lemma LeaversDoneIffAfterPut(ss: seq<State>, es: seq<Event>)
    requires IsRun(ss, es)
    ensures (forall k {:trigger AfterPut(ss[k], es[k])} | 0 <= k < |es| :: AfterPut(ss[k], es[k])) <==>
            forall k | 0 <= k < |ss| :: LeaversDone(ss[k])
  {
    hide LeaversDone, AfterPut, Core, Lifecycle.Enabled, Lifecycle.Step;
    if forall k {:trigger AfterPut(ss[k], es[k])} | 0 <= k < |es| :: AfterPut(ss[k], es[k]) {
      forall k | 0 <= k < |ss|
        ensures LeaversDone(ss[k])
      {
        LeaversDoneSoFar(ss, es, k);
      }
    }
    if forall k | 0 <= k < |ss| :: LeaversDone(ss[k]) {
      forall k {:trigger AfterPut(ss[k], es[k])} | 0 <= k < |es|
        ensures AfterPut(ss[k], es[k])
      {
        InvThroughoutRun(ss, es, k);
        assert StepAt(ss, es, k) && LeaversDone(ss[k]) && LeaversDone(ss[k + 1]);
        StepKeepsLeavers(ss[k], es[k]);
      }
    }
  }

  lemma {:induction false} LeaversDoneSoFar(ss: seq<State>, es: seq<Event>, k: nat)
    requires IsRun(ss, es) && k <= |es|
    requires forall j {:trigger AfterPut(ss[j], es[j])} | 0 <= j < |es| :: AfterPut(ss[j], es[j])
    ensures LeaversDone(ss[k])
  {
    hide AfterPut, Core, Lifecycle.Enabled, Lifecycle.Step;
    if k > 0 {
      LeaversDoneSoFar(ss, es, k - 1);
      InvThroughoutRun(ss, es, k - 1);
      assert StepAt(ss, es, k - 1) && AfterPut(ss[k - 1], es[k - 1]);
      StepKeepsLeavers(ss[k - 1], es[k - 1]);
    }
  }

  /** In step j of a run thread t looks at request r and leaves its wait. */
  ghost predicate LeavesAt(ss: seq<State>, es: seq<Event>, j: nat, t: nat, r: nat)
    requires j < |es| < |ss|
  {
    && es[j] == WaitCheck(t) && t < |ss[j].waiters| && ss[j].waiters[t].phase == AtLock(r)
    && r < |ss[j].reqs| && ss[j].reqs[r].status != Submitted
  }

  /** From the step on, in every state, the request has ended with the status that step j saw. */
  ghost predicate EndedSince(ss: seq<State>, j: nat, r: nat)
    requires j < |ss| && r < |ss[j].reqs|
  {
    forall k | j <= k < |ss| :: r < |ss[k].reqs| && ss[k].reqs[r].Ended() && ss[k].reqs[r].status == ss[j].reqs[r].status
  }

  /** Wait by wait, whatever the other threads do: a wait ends on a request that has ended and stays as it is to the end of
      the run, if and only if the request's put had returned when the thread looked. */
  lemma WaitsEndDecided(ss: seq<State>, es: seq<Event>, j: nat, t: nat, r: nat)
    requires IsRun(ss, es) && j < |es| && LeavesAt(ss, es, j, t, r)
    ensures EndedSince(ss, j, r) <==> ss[j].reqs[r].Returned()
  {
    InvThroughoutRun(ss, es, j);
    EndedUnlessSubmitted(ss[j], r);
    if ss[j].reqs[r].Returned() {
      forall k | j <= k < |ss|
        ensures r < |ss[k].reqs| && ss[k].reqs[r].Ended() && ss[k].reqs[r].status == ss[j].reqs[r].status
      {
        FinalForever(ss, es, j, k, r);
      }
    }
  }

  lemma {:induction false} ReturnedStays(ss: seq<State>, es: seq<Event>, from: nat, to: nat, r: nat)
    requires IsRun(ss, es) && from <= to <= |es| && r < |ss[from].reqs| && ss[from].reqs[r].Returned()
    ensures r < |ss[to].reqs| && ss[to].reqs[r].Returned()
  {
    if from < to {
      ReturnedStays(ss, es, from, to - 1, r);
      assert StepAt(ss, es, to - 1);
      ReturnedStep(ss[to - 1], es[to - 1], r);
      RequestAfterStep(ss[to - 1], es[to - 1], r);
    }
  }

  lemma ReturnedStep(s: State, e: Event, r: nat)
    requires Enabled(s, e) && r < |s.reqs| && s.reqs[r].Returned()
    ensures NextRequest(s, e, r).put == s.reqs[r].put
  {
  }

  /** What a waiting thread's caller can check: a wait that begins after the put has returned ends rightly. */
  lemma WaitAfterPut(ss: seq<State>, es: seq<Event>, i: nat, j: nat, t: nat, r: nat)
    requires IsRun(ss, es) && i <= j < |es| && r < |ss[i].reqs| && ss[i].reqs[r].Returned()
    requires LeavesAt(ss, es, j, t, r)
    ensures EndedSince(ss, j, r)
  {
    ReturnedStays(ss, es, i, j, r);
    WaitsEndDecided(ss, es, j, t, r);
  }

  /** And that is exact: a thread may begin a wait in any state and look at the request at once, and then it leaves wrongly
      if and only if the put had not returned. */
  lemma WaitBeforePut(s: State, t: nat, r: nat, timed: bool)
    requires Core(s) && t < |s.waiters| && s.waiters[t].phase.Outside? && r < |s.reqs|
    ensures Enabled(s, WaitBegin(t, r, timed))
    ensures var s' := Step(s, WaitBegin(t, r, timed));
            && Enabled(s', WaitCheck(t))
            && var s'' := Step(s', WaitCheck(t));
            && |s''.waiters| == |s.waiters| && |s''.reqs| == |s.reqs|
            && (s''.waiters[t].phase == Leaving(r) && !s''.reqs[r].Ended() <==> !s.reqs[r].Returned())
  {
    var s' := Step(s, WaitBegin(t, r, timed));
    assert s'.waiters[t].phase == AtLock(r) && s'.reqs == s.reqs;
    StepKeepsCore(s, WaitBegin(t, r, timed));
    Checks(s', t);
    CheckEndsDecided(s', t);
  }

  // ---------------------------------------------------------------- blocked threads have something to wait for

  /** While a thread is blocked, and wake-ups cannot have been lost, work is left that will end its wait: some worker can
      take a step, or during a shutdown releaseAll can. */
  lemma BlockedMeansWork(ss: seq<State>, es: seq<Event>, k: nat, t: nat) returns (e: Event)
    requires TimelyRun(ss, es) && k <= |es| && forall j | 0 <= j < k :: OneBlocked(ss[j])
    requires t < |ss[k].waiters| && ss[k].waiters[t].phase.Blocked?
    requires !ss[k].pool.isRunning ==> InTimeRun(ss, es)
    ensures Enabled(ss[k], e) && if ss[k].pool.isRunning then WorkerStep(e) else ShutdownStep(e)
  {
    var r := ss[k].waiters[t].phase.r;
    NoWaiterForgotten(ss, es, k);
    InvThroughoutRun(ss, es, k);
    SubmittedIsUnpublished(ss, es, k, r);
    if ss[k].pool.isRunning {
      e := UnfinishedMeansWork(ss[k], r);
    } else {
      if ss[k].pool.joined == P.THREAD_POOL_SIZE {
        InTimeRunsDrain(ss, es, k);
        assert false;
      }
      e := ShutdownProgress(ss[k]);
    }
  }
}
