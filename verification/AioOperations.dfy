// The operations of the AIO accessor that other threads interrupt: put, and the loop of releaseAll.

module AioOperations {
  import opened Common
  import Growth
  import opened AioProtocol
  import B = AioBuffers
  import opened AioAccessors
  import opened Traces

  method Dispatch(acc: AioAccessor, e: Event)
    requires acc.Valid() && Next(acc.View(), e).Some?
    modifies acc`reqs, acc`live, acc`reqList, acc`reqCount, acc.reqList, acc.reqs
    ensures acc.Valid() && (acc.reqList == old(acc.reqList) || fresh(acc.reqList))
    ensures forall q | q in acc.reqs && q !in old(acc.reqs) :: fresh(q)
    ensures Next(old(acc.View()), e) == Some(acc.View())
  {
    hide AioAccessor.View, AioProtocol.Next;
    match e
    case Get => acc.GetRequest();
    case Alloc(r, addr) => acc.AllocWriteBuffer(r, addr);
    case Import(r) => acc.ImportReadBuffer(r);
    case Start(r, ok) => acc.StartIo(r, ok);
    case Mark(r) => acc.MarkSubmitted(r);
    case List(r, grown) => acc.AddToList(r, grown);
    case Callback(r, ok) => acc.Callback(r, ok);
    case Cancel(r) => acc.CancelRequest(r);
    case ReleaseEntry(i) => acc.ReleaseOne(i);
  }

  /** Takes an enabled step, whatever it is, and adds it to the run. */
  method Perform(acc: AioAccessor, e: Event)
    requires acc.Run().Some? && Next(acc.View(), e).Some?
    modifies acc.Repr
    ensures acc.Run().Some? && acc.states == old(acc.states) + [acc.View()] && acc.steps == old(acc.steps) + [e]
    ensures fresh(acc.Repr - old(acc.Repr))
    ensures Next(old(acc.View()), e) == Some(acc.View())
  {
    ghost var s := acc.View();
    assert acc.Valid() && IsRun(acc.states, acc.steps) && acc.states[|acc.steps|] == s && acc.Repr == acc.Objects();
    hide AioAccessor.Run, AioAccessor.View, AioProtocol.Next, AioProtocol.IsRun;
    assert acc in acc.Repr && acc.reqList in acc.Repr && forall r | 0 <= r < |acc.reqs| :: acc.reqs[r] in acc.Repr;
    Dispatch(acc, e);
    acc.Record(s, e);
  }

  /** A thread inside put or releaseAll, by the steps that are its own to take. */
  datatype Thread = Putting(r: nat) | Releasing

  predicate Own(me: Thread, e: Event) {
    match me
    case Putting(r) => (e.Start? || e.Mark? || e.List?) && e.r == r
    case Releasing => e.ReleaseEntry?
  }

  twostate predicate RanOn(acc: AioAccessor)
    reads acc, acc.reqList, acc.reqs
  {
    && acc.Run().Some?
    && fresh(acc.Repr - old(acc.Repr))
    && old(acc.steps) <= acc.steps && old(acc.states) <= acc.states
  }

  /** What happens of a segment of callbacks and other threads' steps, in order: a step that is not enabled in its turn does
      not, nor does one that belongs to the thread inside the operation. Also where it leads. */
  ghost function Played(s: State, me: Thread, es: seq<Event>): (seq<Event>, State) {
    if es == [] then ([], s)
    else
      var (before, s') := Played(s, me, es[..|es| - 1]);
      var e := es[|es| - 1];
      if !Own(me, e) && Next(s', e).Some? then (before + [e], Next(s', e).value) else (before, s')
  }

  ghost function Player(me: Thread): (State, seq<Event>) -> seq<Event> {
    (s, es) => Played(s, me, es).0
  }

  lemma {:induction false} PlayedIsOthers(s: State, me: Thread, es: seq<Event>)
    ensures forall e | e in Player(me)(s, es) :: e in es && !Own(me, e)
    ensures |Player(me)(s, es)| <= |es|
  {
    if es != [] {
      PlayedIsOthers(s, me, es[..|es| - 1]);
    }
  }

  lemma NonePlayed(s: State, me: Thread)
    ensures Played(s, me, []) == ([], s)
  {
  }

  lemma OnePlayed(s: State, me: Thread, es: seq<Event>, e: Event)
    ensures var (before, s') := Played(s, me, es);
            Played(s, me, es + [e]) ==
            if !Own(me, e) && Next(s', e).Some? then (before + [e], Next(s', e).value) else (before, s')
  {
    hide AioProtocol.Next;
    assert (es + [e])[..|es|] == es;
  }

  /** Callbacks, and the steps of other threads, in any order; what is not enabled does not happen. */
  method Interfere(acc: AioAccessor, me: Thread, es: seq<Event>)
    requires acc.Run().Some?
    modifies acc.Repr
    ensures RanOn(acc) && |acc.steps| <= |old(acc.steps)| + |es|
    ensures acc.steps == old(acc.steps) + Player(me)(old(acc.View()), es)
    ensures forall k | |old(acc.steps)| <= k < |acc.steps| :: !Own(me, acc.steps[k])
  {
    ghost var s, before, taken := acc.View(), acc.steps, [];
    NonePlayed(s, me);
    assert es[..0] == [] && before + taken == before;
    for j := 0 to |es|
      invariant RanOn(acc) && acc.steps == before + taken && Played(s, me, es[..j]) == (taken, acc.View())
    {
      hide AioAccessor.Run, AioProtocol.Next, Played;
      assert es[..j + 1] == es[..j] + [es[j]];
      OnePlayed(s, me, es[..j], es[j]);
      InOrder(acc);
      if !Own(me, es[j]) && Next(acc.View(), es[j]).Some? {
        Perform(acc, es[j]);
        taken := taken + [es[j]];
      }
    }
    assert es[..|es|] == es;
    PlayedIsOthers(s, me, es);
  }

  lemma InOrder(acc: AioAccessor)
    requires acc.Run().Some?
    ensures |acc.states| == |acc.steps| + 1 && acc.states[|acc.steps|] == acc.View()
    ensures |acc.View().list| == acc.reqCount <= acc.reqList.Length
  {
  }

  /** The thread takes a step of its operation, the moves of which so far are given. */
  method Take(acc: AioAccessor, e: Event, ghost me: Thread, ghost from: nat, ghost moves: seq<Move<Event>>)
    requires acc.Run().Some? && Next(acc.View(), e).Some?
    requires TracedFrom(acc.states, acc.steps, from, moves, Player(me))
    modifies acc.Repr
    ensures RanOn(acc) && acc.states == old(acc.states) + [acc.View()] && acc.steps == old(acc.steps) + [e]
    ensures Next(old(acc.View()), e) == Some(acc.View())
    ensures TracedFrom(acc.states, acc.steps, from, moves + [Act(e)], Player(me))
  {
    hide TracedFrom, AioProtocol.Next;
    ghost var ss, es := acc.states, acc.steps;
    Perform(acc, e);
    InOrder(acc);
    ActTraced(ss, es, acc.states, acc.steps, from, moves, Player(me), e);
  }

  /** Between two of its steps the others run. */
  method LetRun(acc: AioAccessor, me: Thread, es: seq<Event>, ghost from: nat, ghost moves: seq<Move<Event>>)
    requires acc.Run().Some? && TracedFrom(acc.states, acc.steps, from, moves, Player(me))
    modifies acc.Repr
    ensures RanOn(acc) && |acc.steps| <= |old(acc.steps)| + |es|
    ensures forall k | |old(acc.steps)| <= k < |acc.steps| :: !Own(me, acc.steps[k])
    ensures TracedFrom(acc.states, acc.steps, from, moves + [Others(es)], Player(me))
  {
    hide TracedFrom, Player;
    ghost var ss, steps := acc.states, acc.steps;
    InOrder(acc);
    Interfere(acc, me, es);
    InOrder(acc);
    OthersTraced(ss, steps, acc.states, acc.steps, from, moves, Player(me), es);
  }

  // ---------------------------------------------------------------- releaseAll

  /** The first n entries have been released. */
  ghost predicate Cleared(s: State, n: nat) {
    n <= |s.list| && forall i | 0 <= i < n :: s.list[i].None?
  }

  lemma ClearedStays(s: State, e: Event, n: nat)
    requires Cleared(s, n) && Enabled(s, e)
    ensures Cleared(Step(s, e), n) && |s.list| <= |Step(s, e).list|
  {
  }

  lemma {:induction false} ClearedInRun(ss: seq<State>, es: seq<Event>, from: nat, to: nat, n: nat)
    requires IsRun(ss, es) && from <= to <= |es| && Cleared(ss[from], n)
    ensures Cleared(ss[to], n) && |ss[from].list| <= |ss[to].list|
  {
    if from < to {
      ClearedInRun(ss, es, from, to - 1, n);
      assert StepAt(ss, es, to - 1);
      ClearedStays(ss[to - 1], es[to - 1], n);
    }
  }

  /** Other threads run between two turns of the loop. */
  method ReleasePause(acc: AioAccessor, es: seq<Event>, ghost n: nat, ghost from: nat, ghost moves: seq<Move<Event>>)
    requires acc.Run().Some? && Cleared(acc.View(), n)
    requires TracedFrom(acc.states, acc.steps, from, moves, Player(Releasing))
    modifies acc.Repr
    ensures RanOn(acc) && acc.reqCount <= acc.reqList.Length && Cleared(acc.View(), n) && old(acc.reqCount) <= acc.reqCount
    ensures TracedFrom(acc.states, acc.steps, from, moves + [Others(es)], Player(Releasing))
  {
    hide TracedFrom;
    ghost var at := |acc.steps|;
    LetRun(acc, Releasing, es, from, moves);
    ClearedInRun(acc.states, acc.steps, at, |acc.steps|, n);
  }

  method ReleaseTurn(acc: AioAccessor, i: nat, ghost from: nat, ghost moves: seq<Move<Event>>)
    requires acc.Run().Some? && Cleared(acc.View(), i) && i < acc.reqCount
    requires TracedFrom(acc.states, acc.steps, from, moves, Player(Releasing))
    modifies acc.Repr
    ensures RanOn(acc) && acc.reqCount <= acc.reqList.Length && acc.reqCount == old(acc.reqCount)
    ensures Cleared(acc.View(), i + 1)
    ensures TracedFrom(acc.states, acc.steps, from, moves + [Act(ReleaseEntry(i))], Player(Releasing))
  {
    hide TracedFrom;
    assert acc.Entries()[i] == Entry(acc.reqList[i]);
    Take(acc, ReleaseEntry(i), Releasing, from, moves);
  }

  /** Every request ever listed has been released, and its buffer freed once if it had one. */
  ghost predicate AllFreed(ss: seq<State>, es: seq<Event>) {
    && |ss| == |es| + 1
    && (forall i | 0 <= i < |ss[|es|].list| :: ss[|es|].list[i].None?)
    && (B.CarefulRun(ss, es) ==>
          forall r | r in B.AcceptedPuts(ss, es, |es|) ::
            Count(ss, es, 0, |es|, B.Frees(r)) == Count(ss, es, 0, |es|, B.Allocations(r)) <= 1)
  }

  lemma ClearedMeansFreed(ss: seq<State>, es: seq<Event>)
    requires IsRun(ss, es) && Cleared(ss[|es|], |ss[|es|].list|)
    ensures AllFreed(ss, es)
  {
    if B.CarefulRun(ss, es) {
      B.ListIsAcceptedPuts(ss, es, |es|);
      forall r | r in B.AcceptedPuts(ss, es, |es|)
        ensures Count(ss, es, 0, |es|, B.Frees(r)) == Count(ss, es, 0, |es|, B.Allocations(r)) <= 1
      {
        B.ReleasedIsFreed(ss, es, |es|, r);
      }
    }
  }

  lemma ListSize(acc: AioAccessor)
    requires acc.Run().Some?
    ensures acc.reqCount <= acc.reqList.Length && |acc.View().list| == acc.reqCount && Cleared(acc.View(), 0)
  {
  }

  lemma AllCleared(acc: AioAccessor)
    requires acc.Run().Some? && Cleared(acc.View(), acc.reqCount)
    ensures AllFreed(acc.states, acc.steps)
  {
    ListSize(acc);
    ClearedMeansFreed(acc.states, acc.steps);
  }

  /** The acts among the moves, in order. */
  ghost function ActsOf(moves: seq<Move<Event>>): seq<Event> {
    if moves == [] then []
    else
      var m := moves[|moves| - 1];
      ActsOf(moves[..|moves| - 1]) + if m.Act? then [m.e] else []
  }

  /** The moves of releaseAll up to the n-th turn: every entry is released once, in order. */
  ghost predicate ReleaseMoves(moves: seq<Move<Event>>, n: nat, others: seq<seq<Event>>) {
    ActsOf(moves) == seq(n, i requires 0 <= i < n => ReleaseEntry(i)) && OthersOf(moves) == others
  }

  lemma ReleaseMovesOn(moves: seq<Move<Event>>, n: nat, others: seq<seq<Event>>, m: Move<Event>)
    requires ReleaseMoves(moves, n, others)
    ensures m == Act(ReleaseEntry(n)) ==> ReleaseMoves(moves + [m], n + 1, others)
    ensures m.Others? ==> ReleaseMoves(moves + [m], n, others + [m.segment])
  {
    OneMove(moves, m);
    assert (moves + [m])[..|moves|] == moves;
  }

  /** The loop of aio_release_all_resources. Callbacks, cancels and puts of other threads may come before every turn; the
      loop reads req_count anew each time, and releases each entry once. */
  method ReleaseAll(acc: AioAccessor, schedule: seq<seq<Event>>) returns (ghost moves: seq<Move<Event>>)
    requires acc.Run().Some?
    modifies acc.Repr
    ensures RanOn(acc) && AllFreed(acc.states, acc.steps)
    ensures TracedFrom(acc.states, acc.steps, |old(acc.steps)|, moves, Player(Releasing))
    ensures exists next: nat :: next <= |schedule| && ReleaseMoves(moves, acc.reqCount, schedule[..next])
  {
    hide AioAccessor.Run, AioAccessor.View, Cleared, AllFreed, TracedFrom, ReleaseMoves;
    ghost var from := |acc.steps|;
    InOrder(acc);
    NothingYet(acc.states, acc.steps, Player(Releasing));
    ListSize(acc);
    var i, next := 0, 0;
    moves := [];
    NoneReleased();
    while i < acc.reqCount
      invariant RanOn(acc) && 0 <= i <= acc.reqCount <= acc.reqList.Length && 0 <= next <= |schedule|
      invariant Cleared(acc.View(), i)
      invariant TracedFrom(acc.states, acc.steps, from, moves, Player(Releasing)) && ReleaseMoves(moves, i, schedule[..next])
      decreases |schedule| - next, acc.reqCount - i
    {
      if next < |schedule| {
        ReleasePause(acc, schedule[next], i, from, moves);
        ReleaseMovesOn(moves, i, schedule[..next], Others(schedule[next]));
        moves := moves + [Others(schedule[next])];
        assert schedule[..next] + [schedule[next]] == schedule[..next + 1];
        next := next + 1;
      }
      ReleaseTurn(acc, i, from, moves);
      ReleaseMovesOn(moves, i, schedule[..next], Act(ReleaseEntry(i)));
      moves := moves + [Act(ReleaseEntry(i))];
      i := i + 1;
    }
    AllCleared(acc);
  }

  lemma NoneReleased()
    ensures ReleaseMoves([], 0, [])
  {
  }

  // ---------------------------------------------------------------- put

  /** Nobody but the putting thread moves a request through its put. */
  lemma LifeStays(s: State, e: Event, r: nat)
    requires B.ListInv(s) && Enabled(s, e) && r < |s.reqs| && !s.reqs[r].life.Listed? && !s.reqs[r].life.Fresh?
    requires !Own(Putting(r), e)
    ensures r < |Step(s, e).reqs| && Step(s, e).reqs[r].life == s.reqs[r].life
    ensures Step(s, e).reqs[r].isAlloced == s.reqs[r].isAlloced
    ensures s.reqs[r].buf == s.reqs[r].aioBuf == Null ==> Step(s, e).reqs[r].buf == Step(s, e).reqs[r].aioBuf == Null
    ensures |Step(s, e).list| <= |s.list| + 1
  {
  }

  lemma {:induction false} LifeInRun(ss: seq<State>, es: seq<Event>, from: nat, to: nat, r: nat)
    requires IsRun(ss, es) && from <= to <= |es|
    requires r < |ss[from].reqs| && !ss[from].reqs[r].life.Listed? && !ss[from].reqs[r].life.Fresh?
    requires forall k | from <= k < to :: !Own(Putting(r), es[k])
    ensures r < |ss[to].reqs| && ss[to].reqs[r].life == ss[from].reqs[r].life
    ensures ss[to].reqs[r].isAlloced == ss[from].reqs[r].isAlloced
    ensures ss[from].reqs[r].buf == ss[from].reqs[r].aioBuf == Null ==> ss[to].reqs[r].buf == ss[to].reqs[r].aioBuf == Null
    ensures |ss[to].list| <= |ss[from].list| + (to - from)
  {
    if from < to {
      LifeInRun(ss, es, from, to - 1, r);
      B.ListThroughoutRun(ss, es, to - 1);
      assert StepAt(ss, es, to - 1);
      LifeStays(ss[to - 1], es[to - 1], r);
    }
  }

  /** Callbacks and other threads run between two parts of the put of request r. */
  method PutPause(acc: AioAccessor, r: nat, es: seq<Event>, ghost from: nat, ghost moves: seq<Move<Event>>)
    requires acc.Run().Some? && r < |acc.reqs| && !acc.reqs[r].life.Listed? && !acc.reqs[r].life.Fresh?
    requires TracedFrom(acc.states, acc.steps, from, moves, Player(Putting(r)))
    modifies acc.Repr
    ensures RanOn(acc) && r < |acc.reqs| && acc.reqs[r].life == old(acc.reqs[r].life)
    ensures acc.reqs[r].isAlloced == old(acc.reqs[r].isAlloced)
    ensures old(acc.reqs[r].buf == acc.reqs[r].aioBuf == Null) ==> acc.reqs[r].buf == acc.reqs[r].aioBuf == Null
    ensures acc.reqCount <= old(acc.reqCount) + |es| && (es == [] ==> acc.reqCount == old(acc.reqCount))
    ensures TracedFrom(acc.states, acc.steps, from, moves + [Others(es)], Player(Putting(r)))
  {
    hide TracedFrom;
    ghost var at := |acc.steps|;
    LetRun(acc, Putting(r), es, from, moves);
    LifeInRun(acc.states, acc.steps, at, |acc.steps|, r);
    assert acc.View().reqs[r] == acc.reqs[r].View() && |acc.View().list| == acc.reqCount;
  }

  method PutStart(acc: AioAccessor, r: nat, ok: bool) returns (ghost moves: seq<Move<Event>>)
    requires acc.Run().Some? && r < |acc.reqs| && acc.reqs[r].life.Fresh?
    modifies acc.Repr
    ensures RanOn(acc) && r < |acc.reqs| && acc.reqs[r].life == (if ok then Started else Refused)
    ensures acc.reqs[r].isAlloced == old(acc.reqs[r].isAlloced)
    ensures !ok && acc.reqs[r].isAlloced ==> acc.reqs[r].buf == acc.reqs[r].aioBuf == Null
    ensures acc.reqCount == old(acc.reqCount)
    ensures moves == [Act(Start(r, ok))]
    ensures TracedFrom(acc.states, acc.steps, |old(acc.steps)|, moves, Player(Putting(r)))
  {
    hide TracedFrom;
    ghost var s, from := acc.View(), |acc.steps|;
    InOrder(acc);
    NothingYet(acc.states, acc.steps, Player(Putting(r)));
    Take(acc, Start(r, ok), Putting(r), from, []);
    moves := [Act(Start(r, ok))];
    assert [] + moves == moves;
    assert acc.View().reqs[r] == RequestStep(s, Start(r, ok)) && |acc.View().list| == acc.reqCount;
  }

  method PutMark(acc: AioAccessor, r: nat, ghost from: nat, ghost moves: seq<Move<Event>>)
    requires acc.Run().Some? && r < |acc.reqs| && (acc.reqs[r].life.Started? || acc.reqs[r].life.Refused?)
    requires TracedFrom(acc.states, acc.steps, from, moves, Player(Putting(r)))
    modifies acc.Repr
    ensures RanOn(acc) && r < |acc.reqs| && acc.reqs[r].status == Submitted
    ensures acc.reqs[r].life == (if old(acc.reqs[r].life).Started? then Marked else Rejected)
    ensures acc.reqs[r].isAlloced == old(acc.reqs[r].isAlloced)
    ensures acc.reqs[r].buf == old(acc.reqs[r].buf) && acc.reqs[r].aioBuf == old(acc.reqs[r].aioBuf)
    ensures acc.reqCount == old(acc.reqCount)
    ensures TracedFrom(acc.states, acc.steps, from, moves + [Act(Mark(r))], Player(Putting(r)))
  {
    hide TracedFrom;
    ghost var s := acc.View();
    Take(acc, Mark(r), Putting(r), from, moves);
    assert acc.View().reqs[r] == RequestStep(s, Mark(r)) && |acc.View().list| == acc.reqCount;
  }

  method PutList(acc: AioAccessor, r: nat, grown: bool, ghost from: nat, ghost moves: seq<Move<Event>>)
    returns (listed: bool)
    requires acc.Run().Some? && r < |acc.reqs| && acc.reqs[r].life.Marked? && acc.reqCount < Growth.MAX_SLOTS
    requires TracedFrom(acc.states, acc.steps, from, moves, Player(Putting(r)))
    modifies acc.Repr
    ensures RanOn(acc) && r < |acc.reqs| && listed == (old(acc.reqCount) % Growth.REQ_LIST_BUFSIZE != 0 || grown)
    ensures acc.View().list == if listed then old(acc.View().list) + [Some(r)] else old(acc.View().list)
    ensures acc.reqs[r].life == if listed then Listed else Unlisted
    ensures |acc.steps| == |old(acc.steps)| + 1 && acc.states[|old(acc.steps)|] == old(acc.View())
    ensures TracedFrom(acc.states, acc.steps, from, moves + [Act(List(r, grown))], Player(Putting(r)))
  {
    hide TracedFrom;
    ghost var s := acc.View();
    InOrder(acc);
    listed := acc.reqCount % Growth.REQ_LIST_BUFSIZE != 0 || grown;
    Take(acc, List(r, grown), Putting(r), from, moves);
    assert acc.View().reqs[r] == RequestStep(s, List(r, grown));
  }

  /** A request whose allocated buffer is gone from its pointers has no block left in the heap. */
  lemma NoBlockLeft(acc: AioAccessor, r: nat)
    requires acc.Run().Some? && B.CarefulRun(acc.states, acc.steps)
    requires r < |acc.reqs| && (acc.reqs[r].isAlloced ==> acc.reqs[r].buf == Null)
    ensures forall a | a in acc.live :: acc.live[a] != r
  {
    B.InvThroughoutRun(acc.states, acc.steps, |acc.steps|);
    assert acc.View().reqs[r] == acc.reqs[r].View();
  }

  /** The last step so far was that of a put into the list: it has found room unless the list was full to a page and realloc
      failed. */
  ghost predicate Answers(listed: bool, grown: bool, ss: seq<State>, es: seq<Event>) {
    && |ss| == |es| + 1 && |es| > 0
    && (listed <==> grown || |ss[|es| - 1].list| % Growth.REQ_LIST_BUFSIZE != 0)
  }

  /** The others run once more, then the request is listed. */
  method PutLast(acc: AioAccessor, r: nat, grown: bool, beforeList: seq<Event>, ghost from: nat,
                 ghost moves: seq<Move<Event>>)
    returns (listed: bool)
    requires acc.Run().Some? && r < |acc.reqs| && acc.reqs[r].life.Marked?
    requires acc.reqCount + |beforeList| < Growth.MAX_SLOTS
    requires TracedFrom(acc.states, acc.steps, from, moves, Player(Putting(r)))
    modifies acc.Repr
    ensures RanOn(acc) && r < |acc.reqs| && acc.reqs[r].life == if listed then Listed else Unlisted
    ensures listed ==> |acc.View().list| > 0 && acc.View().list[|acc.View().list| - 1] == Some(r)
    ensures Answers(listed, grown, acc.states, acc.steps)
    ensures beforeList == [] ==> (listed <==> grown || old(acc.reqCount) % Growth.REQ_LIST_BUFSIZE != 0)
    ensures TracedFrom(acc.states, acc.steps, from, moves + [Others(beforeList)] + [Act(List(r, grown))],
                       Player(Putting(r)))
  {
    hide AioAccessor.Run, AioAccessor.View, TracedFrom;
    PutPause(acc, r, beforeList, from, moves);
    InOrder(acc);
    listed := PutList(acc, r, grown, from, moves + [Others(beforeList)]);
    InOrder(acc);
  }

  /** The moves of put: the start, the mark, and for an operation that could be started the entry into the list, with the
      others in between. */
  ghost predicate PutMoves(moves: seq<Move<Event>>, r: nat, ok: bool, grown: bool, afterStart: seq<Event>,
                           beforeList: seq<Event>) {
    moves == [Act(Start(r, ok)), Others(afterStart), Act(Mark(r))] +
             if ok then [Others(beforeList), Act(List(r, grown))] else []
  }

  /** aio_put_request; true means RET_OK. ok and grown say how aio_read or aio_write and realloc turn out. A request whose
      operation could not be started has given its buffer back; one that finds no room in the list, which can be only when
      the list is full to a page and realloc fails, stays in flight. */
  method PutRequest(acc: AioAccessor, r: nat, ok: bool, grown: bool, afterStart: seq<Event>, beforeList: seq<Event>)
    returns (res: bool, ghost moves: seq<Move<Event>>)
    requires acc.Run().Some? && r < |acc.reqs| && acc.reqs[r].life.Fresh?
    requires acc.reqCount + |afterStart| + |beforeList| < Growth.MAX_SLOTS
    modifies acc.Repr
    ensures RanOn(acc) && r < |acc.reqs|
    ensures res ==> acc.reqs[r].life.Listed? && |acc.View().list| > 0 && acc.View().list[|acc.View().list| - 1] == Some(r)
    ensures !res ==> acc.reqs[r].life == (if ok then Unlisted else Rejected)
    ensures res ==> ok
    ensures ok ==> Answers(res, grown, acc.states, acc.steps)
    ensures ok && afterStart == beforeList == [] ==> (res <==> grown || old(acc.reqCount) % Growth.REQ_LIST_BUFSIZE != 0)
    ensures !ok && old(acc.reqs[r].isAlloced) ==> acc.reqs[r].isAlloced && acc.reqs[r].buf == acc.reqs[r].aioBuf == Null
    ensures !ok && B.CarefulRun(acc.states, acc.steps) ==> forall a | a in acc.live :: acc.live[a] != r
    ensures TracedFrom(acc.states, acc.steps, |old(acc.steps)|, moves, Player(Putting(r)))
    ensures PutMoves(moves, r, ok, grown, afterStart, beforeList)
  {
    hide AioAccessor.Run, AioAccessor.View, TracedFrom, Answers;
    ghost var from := |acc.steps|;
    moves := PutStart(acc, r, ok);
    PutPause(acc, r, afterStart, from, moves);
    moves := moves + [Others(afterStart)];
    PutMark(acc, r, from, moves);
    moves := moves + [Act(Mark(r))];
    res := false;
    if ok {
      res := PutLast(acc, r, grown, beforeList, from, moves);
      assert moves + [Others(beforeList), Act(List(r, grown))] == moves + [Others(beforeList)] + [Act(List(r, grown))];
      moves := moves + [Others(beforeList), Act(List(r, grown))];
    } else if B.CarefulRun(acc.states, acc.steps) {
      NoBlockLeft(acc, r);
    }
  }
}
