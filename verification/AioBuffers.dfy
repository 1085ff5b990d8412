// The ownership of an allocated AIO buffer, which four pieces of code may free, and the order of the request list.

module AioBuffers {
  import opened Common
  import opened AioProtocol

  // ---------------------------------------------------------------- the invariant

  /** The caller's side: no import once an allocation has been tried, and no allocation over a block. An allocation may be
      tried again after a malloc that failed. */
  predicate Careful(s: State, e: Event) {
    && (e.Import? && e.r < |s.reqs| ==> !s.reqs[e.r].isAlloced)
    && (e.Alloc? && e.r < |s.reqs| ==> !s.reqs[e.r].buf.Block?)
  }

  /** The two pointers agree until the release; a block belongs to an allocating request only. */
  ghost predicate RequestOk(q: Request) {
    && (if q.life.Released? then !q.buf.Block? else q.aioBuf == q.buf)
    && (q.buf.Block? ==> q.isAlloced)
    && (q.isAlloced ==> !q.buf.Callers?)
    && (q.life.Fresh? ==> q.status == Init)
  }

  /** The heap holds exactly the blocks that requests own. */
  ghost predicate HeapInv(s: State) {
    && (forall r | 0 <= r < |s.reqs| && s.reqs[r].buf.Block? ::
          s.reqs[r].buf.addr in s.live && s.live[s.reqs[r].buf.addr] == r)
    && (forall a | a in s.live :: s.live[a] < |s.reqs| && s.reqs[s.live[a]].buf == Block(a))
  }

  /** The list names each listed request once and nothing else. */
  ghost predicate ListInv(s: State) {
    && (forall i | 0 <= i < |s.list| && s.list[i].Some? ::
          s.list[i].value < |s.reqs| && s.reqs[s.list[i].value].life.Listed?)
    && (forall i, j | 0 <= i < j < |s.list| && s.list[i].Some? && s.list[j].Some? :: s.list[i] != s.list[j])
  }

  ghost predicate Inv(s: State) {
    (forall r | 0 <= r < |s.reqs| :: RequestOk(s.reqs[r])) && HeapInv(s) && ListInv(s)
  }

  /** Every free hits a live block of the very request it works on, and never the caller's memory. */
  lemma FreesAreOwned(s: State, e: Event)
    requires Inv(s) && Enabled(s, e)
    ensures FreeArg(s, e) != Callers
    ensures FreeArg(s, e).Block? ==>
              && Target(s, e).Some? && s.reqs[Target(s, e).value].Owns() == Some(FreeArg(s, e).addr)
              && FreeArg(s, e).addr in s.live && s.live[FreeArg(s, e).addr] == Target(s, e).value
              && FreeArg(s, e).addr !in Step(s, e).live
  {
  }

  /** A step gives a request a block only by its allocation, and takes one away only by freeing it. */
  lemma TargetStep(s: State, e: Event)
    requires Inv(s) && Enabled(s, e) && Careful(s, e) && Target(s, e).Some?
    ensures var q, q' := s.reqs[Target(s, e).value], RequestStep(s, e);
            && RequestOk(q')
            && (if e.Alloc? then q.Owns().None? && q'.Owns() == e.addr
                else q'.Owns() == if FreeArg(s, e).Block? then None else q.Owns())
  {
  }

  lemma StepKeepsHeap(s: State, e: Event)
    requires Inv(s) && Enabled(s, e) && Careful(s, e)
    ensures HeapInv(Step(s, e))
  {
    FreesAreOwned(s, e);
    if Target(s, e).Some? {
      TargetStep(s, e);
      HeapFollows(s, e, RequestStep(s, e));
    }
  }

  lemma HeapFollows(s: State, e: Event, q': Request)
    requires HeapInv(s) && Enabled(s, e) && Target(s, e).Some? && q' == RequestStep(s, e)
    requires var q := s.reqs[Target(s, e).value];
             && (FreeArg(s, e).Block? ==> q.Owns() == Some(FreeArg(s, e).addr))
             && (if e.Alloc? then q.Owns().None? && q'.Owns() == e.addr
                 else q'.Owns() == if FreeArg(s, e).Block? then None else q.Owns())
    ensures HeapInv(Step(s, e))
  {
    var s' := Step(s, e);
    var r := Target(s, e).value;
    assert s'.reqs == s.reqs[r := q'];
    assert e.Alloc? ==> FreeArg(s, e) == Null;
  }

  lemma StepKeepsList(s: State, e: Event)
    requires ListInv(s) && Enabled(s, e)
    ensures ListInv(Step(s, e))
  {
    var s' := Step(s, e);
    if Target(s, e).Some? {
      var r := Target(s, e).value;
      assert s'.reqs == s.reqs[r := RequestStep(s, e)];
      assert s.reqs[r].life.Listed? && !e.ReleaseEntry? ==> RequestStep(s, e).life.Listed?;
    }
  }

  lemma {:induction false} ListThroughoutRun(ss: seq<State>, es: seq<Event>, k: nat)
    requires IsRun(ss, es) && k <= |es|
    ensures ListInv(ss[k])
  {
    if k > 0 {
      ListThroughoutRun(ss, es, k - 1);
      assert StepAt(ss, es, k - 1);
      StepKeepsList(ss[k - 1], es[k - 1]);
    }
  }

  lemma CarefulStepKeepsInv(s: State, e: Event)
    requires Inv(s) && Enabled(s, e) && Careful(s, e)
    ensures Inv(Step(s, e))
  {
    StepKeepsHeap(s, e);
    StepKeepsList(s, e);
    if Target(s, e).Some? {
      TargetStep(s, e);
    }
  }

  /** An import after an allocation: the block, if any, is lost, and the callback of the request, once in flight, frees the
      caller's memory. */
  lemma CarelessImport(s: State, r: nat, ok: bool)
    requires Inv(s) && Enabled(s, Import(r)) && s.reqs[r].isAlloced
    ensures !Inv(Step(s, Import(r)))
    ensures var s' := Step(s, Import(r));
            && Enabled(s', Start(r, true)) && Enabled(Step(s', Start(r, true)), Callback(r, ok))
            && FreeArg(Step(s', Start(r, true)), Callback(r, ok)) == Callers
    ensures s.reqs[r].buf.Block? ==> Leaked(Step(s, Import(r)), s.reqs[r].buf.addr)
  {
    var s' := Step(s, Import(r));
    assert s'.reqs[r].isAlloced && s'.reqs[r].buf.Callers?;
    assert !RequestOk(s'.reqs[r]);
  }

  /** An allocation over a block loses the block. */
  lemma CarelessAlloc(s: State, r: nat, addr: Option<nat>)
    requires Inv(s) && Enabled(s, Alloc(r, addr)) && s.reqs[r].buf.Block?
    ensures Leaked(Step(s, Alloc(r, addr)), s.reqs[r].buf.addr)
    ensures !Inv(Step(s, Alloc(r, addr)))
  {
    var s' := Step(s, Alloc(r, addr));
    var a := s.reqs[r].buf.addr;
    assert s'.reqs == s.reqs[r := s'.reqs[r]];
    assert a in s'.live && s'.live[a] == r;
  }

  /** A live block that no request points to any more. */
  ghost predicate Leaked(s: State, a: nat) {
    a in s.live && forall r | 0 <= r < |s.reqs| :: s.reqs[r].Owns() != Some(a)
  }

  /** A step keeps the heap in order if and only if the caller is careful. */
  lemma StepKeepsInv(s: State, e: Event)
    requires Inv(s) && Enabled(s, e)
    ensures Inv(Step(s, e)) <==> Careful(s, e)
  {
    if Careful(s, e) {
      CarefulStepKeepsInv(s, e);
    } else if e.Import? {
      CarelessImport(s, e.r, true);
    } else {
      CarelessAlloc(s, e.r, e.addr);
    }
  }

  ghost predicate CarefulRun(ss: seq<State>, es: seq<Event>) {
    IsRun(ss, es) && forall k {:trigger Careful(ss[k], es[k])} | 0 <= k < |es| :: Careful(ss[k], es[k])
  }

  lemma {:induction false} InvThroughoutRun(ss: seq<State>, es: seq<Event>, k: nat)
    requires IsRun(ss, es) && k <= |es|
    requires forall j {:trigger Careful(ss[j], es[j])} | 0 <= j < k :: Careful(ss[j], es[j])
    ensures Inv(ss[k])
  {
    if k > 0 {
      InvThroughoutRun(ss, es, k - 1);
      assert StepAt(ss, es, k - 1) && Careful(ss[k - 1], es[k - 1]);
      StepKeepsInv(ss[k - 1], es[k - 1]);
    }
  }

  /** The heap is in order throughout a run exactly if the caller is careful throughout. */
  lemma InOrderIffCareful(ss: seq<State>, es: seq<Event>)
    requires IsRun(ss, es)
    ensures CarefulRun(ss, es) <==> forall k | 0 <= k < |ss| :: Inv(ss[k])
  {
    if CarefulRun(ss, es) {
      forall k | 0 <= k < |ss|
        ensures Inv(ss[k])
      {
        InvThroughoutRun(ss, es, k);
      }
    }
    if forall k | 0 <= k < |ss| :: Inv(ss[k]) {
      forall k | 0 <= k < |es|
        ensures Careful(ss[k], es[k])
      {
        assert StepAt(ss, es, k) && Inv(ss[k]) && Inv(ss[k + 1]);
        StepKeepsInv(ss[k], es[k]);
      }
    }
  }

  // ---------------------------------------------------------------- freed once

  /** malloc has succeeded for request r. */
  ghost function Allocations(r: nat): (State, Event) -> nat {
    (s: State, e: Event) => if Enabled(s, e) && e.Alloc? && e.r == r && e.addr.Some? then 1 else 0
  }

  /** A block is freed on behalf of request r. */
  ghost function Frees(r: nat): (State, Event) -> nat {
    (s: State, e: Event) => if Enabled(s, e) && Target(s, e) == Some(r) && FreeArg(s, e).Block? then 1 else 0
  }

  /** No buffer is freed before its put, and none is allocated after. */
  ghost predicate Untouched(s: State, r: nat) {
    r >= |s.reqs| || s.reqs[r].life.Fresh?
  }

  lemma Balance(s: State, e: Event, r: nat)
    requires Inv(s) && Enabled(s, e) && Careful(s, e)
    ensures Allocations(r)(s, e) + (if r < |s.reqs| && s.reqs[r].Owns().Some? then 1 else 0) ==
            Frees(r)(s, e) + (if r < |Step(s, e).reqs| && Step(s, e).reqs[r].Owns().Some? then 1 else 0)
    ensures Untouched(Step(s, e), r) ==> Untouched(s, r) && Frees(r)(s, e) == 0
    ensures !Untouched(s, r) ==> Allocations(r)(s, e) == 0
  {
    if Target(s, e) == Some(r) {
      TargetStep(s, e);
      assert RequestOk(s.reqs[r]);
    }
  }

  /** However put failures, callbacks, cancels and the release are ordered: the buffer of a request is freed at most once,
      and it has been freed exactly when the request, having been allocated one, no longer owns it. */
  lemma {:induction false} FreedAtMostOnce(ss: seq<State>, es: seq<Event>, k: nat, r: nat)
    requires CarefulRun(ss, es) && k <= |es|
    ensures Count(ss, es, 0, k, Allocations(r)) ==
            Count(ss, es, 0, k, Frees(r)) + if r < |ss[k].reqs| && ss[k].reqs[r].Owns().Some? then 1 else 0
    ensures Count(ss, es, 0, k, Allocations(r)) <= 1
    ensures Untouched(ss[k], r) ==> Count(ss, es, 0, k, Frees(r)) == 0
  {
    if k > 0 {
      FreedAtMostOnce(ss, es, k - 1, r);
      InvThroughoutRun(ss, es, k - 1);
      assert StepAt(ss, es, k - 1) && Careful(ss[k - 1], es[k - 1]);
      Balance(ss[k - 1], es[k - 1], r);
      AtMostOneOwned(ss, es, k, r);
    }
  }

  /** After a careful step a request owns one block at most, so its allocations exceed its frees by one at most. */
  lemma AtMostOneOwned(ss: seq<State>, es: seq<Event>, k: nat, r: nat)
    requires CarefulRun(ss, es) && 0 < k <= |es| && Inv(ss[k - 1])
    ensures Allocations(r)(ss[k - 1], es[k - 1]) == 1 ==> r < |ss[k - 1].reqs| && ss[k - 1].reqs[r].Owns().None?
  {
    assert Careful(ss[k - 1], es[k - 1]);
  }

  /** Once the release has passed a listed request, its buffer has been freed as often as it was allocated. */
  lemma ReleasedIsFreed(ss: seq<State>, es: seq<Event>, k: nat, r: nat)
    requires CarefulRun(ss, es) && k <= |es| && r < |ss[k].reqs| && ss[k].reqs[r].life.Released?
    ensures Count(ss, es, 0, k, Frees(r)) == Count(ss, es, 0, k, Allocations(r)) <= 1
  {
    FreedAtMostOnce(ss, es, k, r);
    InvThroughoutRun(ss, es, k);
    assert RequestOk(ss[k].reqs[r]);
  }

  // ---------------------------------------------------------------- kept while in use

  /** A step after which the request's buffer is not needed any more: the operation could not be started, has ended, is
      cancelled while it is not INIT or CANCEL, or the request is released. */
  ghost predicate GivesUp(s: State, e: Event, r: nat) {
    && Enabled(s, e) && Target(s, e) == Some(r)
    && match e
       case Start(_, ok) => !ok
       case Callback(_, _) => true
       case Cancel(_) => s.reqs[r].status != Init && s.reqs[r].status != Status.Cancel
       case ReleaseEntry(_) => true
       case _ => false
  }

  /** A block is freed by these steps and by no others, and always by them. */
  lemma FreedIffGivenUp(s: State, e: Event, r: nat)
    requires Inv(s) && Enabled(s, e) && r < |s.reqs| && s.reqs[r].Owns().Some?
    ensures Target(s, e) == Some(r) && FreeArg(s, e).Block? <==> GivesUp(s, e, r)
    ensures GivesUp(s, e, r) ==> r < |Step(s, e).reqs| && Step(s, e).reqs[r].Owns().None?
    ensures Careful(s, e) && !GivesUp(s, e, r) ==>
              r < |Step(s, e).reqs| && Step(s, e).reqs[r].Owns() == s.reqs[r].Owns()
  {
    assert RequestOk(s.reqs[r]);
  }

  /** Until then the block stays the request's, and live: no operation is left without its buffer. */
  lemma {:induction false} KeptUntilGivenUp(ss: seq<State>, es: seq<Event>, from: nat, to: nat, r: nat)
    requires CarefulRun(ss, es) && from <= to <= |es| && r < |ss[from].reqs| && ss[from].reqs[r].Owns().Some?
    requires forall k {:trigger GivesUp(ss[k], es[k], r)} | from <= k < to :: !GivesUp(ss[k], es[k], r)
    ensures r < |ss[to].reqs| && ss[to].reqs[r].Owns() == ss[from].reqs[r].Owns()
    ensures var a := ss[from].reqs[r].Owns().value; a in ss[to].live && ss[to].live[a] == r
  {
    hide Enabled, Step, GivesUp, Careful;
    InvThroughoutRun(ss, es, to);
    if from < to {
      KeptUntilGivenUp(ss, es, from, to - 1, r);
      InvThroughoutRun(ss, es, to - 1);
      assert StepAt(ss, es, to - 1) && Careful(ss[to - 1], es[to - 1]) && !GivesUp(ss[to - 1], es[to - 1], r);
      StepIsNext(ss, es, to - 1);
      FreedIffGivenUp(ss[to - 1], es[to - 1], r);
    }
  }

  lemma StepIsNext(ss: seq<State>, es: seq<Event>, k: nat)
    requires k < |es| < |ss| && StepAt(ss, es, k)
    ensures Enabled(ss[k], es[k]) && ss[k + 1] == Step(ss[k], es[k])
  {
  }

  /** An allocation counts as one even when malloc fails: an import after it has the callback free the caller's memory. */
  lemma FailedAllocationCounts(s: State, r: nat, addr: Option<nat>, ok: bool)
    requires Enabled(s, Alloc(r, addr))
    ensures Enabled(Step(s, Alloc(r, addr)), Import(r))
    ensures var s' := Step(Step(s, Alloc(r, addr)), Import(r));
            && Enabled(s', Start(r, true)) && Enabled(Step(s', Start(r, true)), Callback(r, ok))
            && FreeArg(Step(s', Start(r, true)), Callback(r, ok)) == Callers
  {
  }

  // ---------------------------------------------------------------- statuses

  /** The status of request r as the steps so far have it: SUBMITTED by put, IOSUCCESS by a callback of an operation that
      went well, CANCEL by a cancel call that finds it neither INIT nor CANCEL; a failed operation leaves no trace. */
  ghost function LastWritten(es: seq<Event>, k: nat, r: nat): Status
    requires k <= |es|
  {
    if k == 0 then Init
    else
      var before := LastWritten(es, k - 1, r);
      match es[k - 1]
      case Mark(q) => if q == r then Submitted else before
      case Callback(q, ok) => if q == r && ok then IoSuccess else before
      case Cancel(q) => if q == r && before != Init then Status.Cancel else before
      case _ => before
  }

  lemma StatusStep(s: State, e: Event, r: nat)
    requires Enabled(s, e) && r < |s.reqs| && s.reqs[r].status != IoFail
    ensures r < |Step(s, e).reqs|
    ensures Step(s, e).reqs[r].status ==
            match e
            case Mark(q) => if q == r then Submitted else s.reqs[r].status
            case Callback(q, ok) => if q == r && ok then IoSuccess else s.reqs[r].status
            case Cancel(q) => if q == r && s.reqs[r].status != Init then Status.Cancel else s.reqs[r].status
            case _ => s.reqs[r].status
  {
  }

  lemma NewStatus(s: State, e: Event, r: nat)
    requires Enabled(s, e) && |s.reqs| <= r
    ensures r < |Step(s, e).reqs| ==> Step(s, e).reqs[r].status == Init
    ensures (e.Mark? || e.Callback? || e.Cancel?) ==> e.r != r
  {
  }

  /** In every run the status of a request is the one last written, and so it is never IOFAIL. */
  lemma {:induction false} StatusIsLastWritten(ss: seq<State>, es: seq<Event>, k: nat, r: nat)
    requires IsRun(ss, es) && k <= |es|
    ensures if r < |ss[k].reqs| then ss[k].reqs[r].status == LastWritten(es, k, r) else LastWritten(es, k, r) == Init
    ensures LastWritten(es, k, r) != IoFail
  {
    hide Enabled, Step;
    if k > 0 {
      StatusIsLastWritten(ss, es, k - 1, r);
      assert StepAt(ss, es, k - 1);
      StepIsNext(ss, es, k - 1);
      if r < |ss[k - 1].reqs| {
        StatusStep(ss[k - 1], es[k - 1], r);
      } else {
        NewStatus(ss[k - 1], es[k - 1], r);
      }
    }
  }

  // ---------------------------------------------------------------- the request list

  /** The requests whose put returned RET_OK, in order. */
  ghost function AcceptedPuts(ss: seq<State>, es: seq<Event>, k: nat): seq<nat>
    requires k <= |es| < |ss|
  {
    if k == 0 then []
    else if es[k - 1].List? && !NoRoom(ss[k - 1], es[k - 1]) then AcceptedPuts(ss, es, k - 1) + [es[k - 1].r]
    else AcceptedPuts(ss, es, k - 1)
  }

  /** The list is the accepted puts in order; release turns an entry to null when it frees the request. */
  ghost predicate ListShows(s: State, puts: seq<nat>) {
    && |s.list| == |puts|
    && forall i | 0 <= i < |puts| ::
         && puts[i] < |s.reqs|
         && (if s.reqs[puts[i]].life.Released? then s.list[i].None?
             else s.list[i] == Some(puts[i]) && s.reqs[puts[i]].life.Listed?)
  }

  lemma ListShowsStep(s: State, e: Event, puts: seq<nat>)
    requires ListInv(s) && ListShows(s, puts) && Enabled(s, e)
    ensures ListShows(Step(s, e), if e.List? && !NoRoom(s, e) then puts + [e.r] else puts)
  {
  }

  /** In every run, careful or not, the list is the accepted puts in order until the release. */
  lemma {:induction false} ListIsAcceptedPuts(ss: seq<State>, es: seq<Event>, k: nat)
    requires IsRun(ss, es) && k <= |es|
    ensures ListShows(ss[k], AcceptedPuts(ss, es, k))
  {
    if k > 0 {
      ListIsAcceptedPuts(ss, es, k - 1);
      ListThroughoutRun(ss, es, k - 1);
      assert StepAt(ss, es, k - 1);
      ListShowsStep(ss[k - 1], es[k - 1], AcceptedPuts(ss, es, k - 1));
    }
  }

  // ---------------------------------------------------------------- why care is needed

  /** With an import over an allocated buffer, the callback frees the caller's memory, and the allocated block is lost. */
  lemma ImportOverAllocation() returns (ss: seq<State>, es: seq<Event>)
    ensures IsRun(ss, es) && !CarefulRun(ss, es) && |es| > 0
    ensures Enabled(ss[|es|], Callback(0, true)) && FreeArg(ss[|es|], Callback(0, true)) == Callers
    ensures 7 in ss[|es|].live && !exists r | 0 <= r < |ss[|es|].reqs| :: ss[|es|].reqs[r].Owns() == Some(7)
  {
    ss, es := [EMPTY], [];
    RunExtends(ss, es, Get);
    ss, es := ss + [Next(ss[|es|], Get).value], es + [Get];
    RunExtends(ss, es, Alloc(0, Some(7)));
    ss, es := ss + [Next(ss[|es|], Alloc(0, Some(7))).value], es + [Alloc(0, Some(7))];
    RunExtends(ss, es, Import(0));
    ss, es := ss + [Next(ss[|es|], Import(0)).value], es + [Import(0)];
    RunExtends(ss, es, Start(0, true));
    ss, es := ss + [Next(ss[|es|], Start(0, true)).value], es + [Start(0, true)];
    assert !Careful(ss[2], es[2]);
    assert ss[|es|].reqs == [Request(Callers, Callers, true, Init, Started)] && ss[|es|].live == map[7 := 0];
  }
}
