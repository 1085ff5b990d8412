// What a request is for, from getRequest to the end of every run, and whose bytes its buffer and its file hold.

module Requests {
  import opened Common
  import opened Lifecycle
  import opened RequestInvariants
  import opened Runs
  import opened Statuses

  // ---------------------------------------------------------------- what was asked for

  /** The request is for what the caller of getRequest asked for. */
  ghost predicate AsAsked(q: Request, e: Event)
    requires e.GetRequest?
  {
    q.dir == e.dir && q.file == e.file && q.nbytes == e.nbytes && q.offset == e.offset && q.fd0 == e.fd
  }

  lemma OrderStays(s: State, e: Event, r: nat)
    requires Guard(s, e) && r < |s.reqs|
    ensures var q, q' := s.reqs[r], NextRequest(s, e, r);
            q'.dir == q.dir && q'.file == q.file && q'.nbytes == q.nbytes && q'.offset == q.offset && q'.fd0 == q.fd0
  {
  }

  lemma HandedOut(s: State, e: Event)
    requires Enabled(s, e) && e.GetRequest?
    ensures |Step(s, e).reqs| == |s.reqs| + 1
    ensures var q := Step(s, e).reqs[|s.reqs|];
            && AsAsked(q, e) && q.fd == e.fd
            && q.buf == Null && q.prep == Unprepared && q.put == NotPut && q.status == Init
  {
  }

  /** A request handed out is for the caller's file, offset and size, and stays so to the end of every run. */
  lemma {:induction false} RequestIsAsAsked(ss: seq<State>, es: seq<Event>, i: nat, k: nat)
    requires IsRun(ss, es) && i < k <= |es| && es[i].GetRequest?
    ensures |ss[i].reqs| < |ss[k].reqs| && AsAsked(ss[k].reqs[|ss[i].reqs|], es[i])
  {
    var r := |ss[i].reqs|;
    assert StepAt(ss, es, k - 1);
    if k == i + 1 {
      HandedOut(ss[i], es[i]);
    } else {
      RequestIsAsAsked(ss, es, i, k - 1);
      OrderStays(ss[k - 1], es[k - 1], r);
      RequestAfterStep(ss[k - 1], es[k - 1], r);
    }
  }

  // ---------------------------------------------------------------- files

  /** A file opened for writing is truncated and reads as zeros up to its new length; stores aside, nothing else changes
      a file, and in particular no request for another file does. */
  lemma FilesChange(s: State, e: Event, f: nat)
    requires Enabled(s, e) && f < |s.files|
    ensures |Step(s, e).files| == |s.files|
    ensures e.GetRequest? && e.dir == Write && e.file == f ==>
              |Step(s, e).files[f]| == e.nbytes && forall k | 0 <= k < e.nbytes :: Step(s, e).files[f][k] == 0
    ensures e.StoreFile? && e.file == f ==> Step(s, e).files[f] == e.content
    ensures !(e.GetRequest? && e.dir == Write && e.file == f) && !(e.StoreFile? && e.file == f) ==>
              Step(s, e).files[f] == s.files[f]
  {
    assert Step(s, e).files == FilesStep(s, e);
  }

  ghost predicate FilesKnown(s: State) {
    forall r | 0 <= r < |s.reqs| :: s.reqs[r].file < |s.files|
  }

  lemma StepKeepsFilesKnown(s: State, e: Event)
    requires FilesKnown(s) && Enabled(s, e)
    ensures FilesKnown(Step(s, e))
  {
    var s' := Step(s, e);
    assert |s'.files| == |s.files|;
    AcceptedAfterStep(s, e);
    forall r | 0 <= r < |s'.reqs|
      ensures s'.reqs[r].file < |s'.files|
    {
      if r < |s.reqs| {
        RequestAfterStep(s, e, r);
        OrderStays(s, e, r);
      } else {
        HandedOut(s, e);
      }
    }
  }

  /** Every request is for a file there is. */
  lemma {:induction false} FilesKnownThroughoutRun(ss: seq<State>, es: seq<Event>, k: nat)
    requires IsRun(ss, es) && k <= |es|
    ensures FilesKnown(ss[k])
  {
    if k > 0 {
      FilesKnownThroughoutRun(ss, es, k - 1);
      assert StepAt(ss, es, k - 1);
      StepKeepsFilesKnown(ss[k - 1], es[k - 1]);
    }
  }

  // ---------------------------------------------------------------- the caller's buffer

  /** The memcpy into the request's buffer. */
  ghost predicate CopiesTo(s: State, e: Event, r: nat) {
    e.CopyOut? && Works(s, e.w) && Job(s, e.w) == r
  }

  lemma BufferStays(s: State, e: Event, r: nat)
    requires Enabled(s, e) && r < |s.reqs| && s.reqs[r].dir == Read && s.reqs[r].prep == Prepared && !CopiesTo(s, e, r)
    ensures var q' := NextRequest(s, e, r); q'.dir == Read && q'.prep == Prepared && q'.buf == s.reqs[r].buf
  {
  }

  lemma {:induction false} BufferStaysInRun(ss: seq<State>, es: seq<Event>, from: nat, to: nat, r: nat)
    requires IsRun(ss, es) && from <= to <= |es|
    requires r < |ss[from].reqs| && ss[from].reqs[r].dir == Read && ss[from].reqs[r].prep == Prepared
    requires forall k {:trigger CopiesTo(ss[k], es[k], r)} | from <= k < to :: !CopiesTo(ss[k], es[k], r)
    ensures r < |ss[to].reqs| && ss[to].reqs[r].dir == Read && ss[to].reqs[r].prep == Prepared
    ensures ss[to].reqs[r].buf == ss[from].reqs[r].buf
  {
    if from < to {
      BufferStaysInRun(ss, es, from, to - 1, r);
      assert StepAt(ss, es, to - 1) && !CopiesTo(ss[to - 1], es[to - 1], r);
      BufferStays(ss[to - 1], es[to - 1], r);
      RequestAfterStep(ss[to - 1], es[to - 1], r);
    }
  }

  /** The memory a caller imports is left as it is by everybody until the worker's own copy into it. */
  lemma ImportedIsKept(ss: seq<State>, es: seq<Event>, i: nat, k: nat)
    requires IsRun(ss, es) && i < k <= |es| && es[i].ImportReadBuf? && es[i].bytes.Some?
    requires forall j {:trigger CopiesTo(ss[j], es[j], es[i].r)} | i < j < k :: !CopiesTo(ss[j], es[j], es[i].r)
    ensures es[i].r < |ss[k].reqs| && ss[k].reqs[es[i].r].buf == Caller(es[i].bytes.value)
  {
    assert StepAt(ss, es, i);
    RequestAfterStep(ss[i], es[i], es[i].r);
    BufferStaysInRun(ss, es, i + 1, k, es[i].r);
  }

  /** A read cancelled in time gets nothing: its buffer stays as it was when it was cancelled. */
  lemma CancelledGetsNothing(ss: seq<State>, es: seq<Event>, from: nat, to: nat, r: nat)
    requires IsRun(ss, es) && from <= to <= |es| && CancelledInTime(ss[from], r) && ss[from].reqs[r].dir == Read
    ensures r < |ss[to].reqs| && ss[to].reqs[r].status == Cancel && ss[to].reqs[r].buf == ss[from].reqs[r].buf
  {
    CancelledIsNeverRun(ss, es, from, to, r);
    forall k {:trigger CopiesTo(ss[k], es[k], r)} | from <= k < to
      ensures !CopiesTo(ss[k], es[k], r)
    {
      assert !IoOn(ss[k], es[k], r);
    }
    InvThroughoutRun(ss, es, from);
    QueuedReadIsPrepared(ss[from], r);
    BufferStaysInRun(ss, es, from, to, r);
  }

  lemma QueuedReadIsPrepared(s: State, r: nat)
    requires Core(s) && r < |s.reqs| && s.reqs[r].Accepted() && s.reqs[r].dir == Read
    ensures s.reqs[r].prep == Prepared
  {
    assert RequestOk(s.reqs[r], PlaceIn(s, r));
  }
}
