// What a thread does in an operation, step by step: its own steps in their order, and the stretches in between in which
// the others run.

module Traces {

  datatype Move<E> = Act(e: E) | Others(segment: seq<E>)

  /** The steps of a run from one point to a later one are these moves: an act is one step, and in a segment of the
      others' steps exactly those happen that play says can happen from where the run has come to. */
  ghost predicate Traced<S, E>(ss: seq<S>, es: seq<E>, from: nat, to: nat, moves: seq<Move<E>>,
                               play: (S, seq<E>) -> seq<E>)
    requires from <= to <= |es| < |ss|
    decreases |moves|
  {
    if moves == [] then from == to
    else
      var init := moves[..|moves| - 1];
      match moves[|moves| - 1]
      case Act(e) => from < to && es[to - 1] == e && Traced(ss, es, from, to - 1, init, play)
      case Others(segment) =>
        exists p: nat {:trigger play(ss[p], segment)} | from <= p <= to ::
          es[p..to] == play(ss[p], segment) && Traced(ss, es, from, p, init, play)
  }

  /** Up to the end of the run so far. */
  ghost predicate TracedFrom<S, E>(ss: seq<S>, es: seq<E>, from: nat, moves: seq<Move<E>>, play: (S, seq<E>) -> seq<E>) {
    |ss| == |es| + 1 && from <= |es| && Traced(ss, es, from, |es|, moves, play)
  }

  lemma NothingYet<S, E>(ss: seq<S>, es: seq<E>, play: (S, seq<E>) -> seq<E>)
    requires |ss| == |es| + 1
    ensures TracedFrom(ss, es, |es|, [], play)
  {
  }

  lemma {:induction false} TracedStays<S, E>(ss: seq<S>, es: seq<E>, ss': seq<S>, es': seq<E>, from: nat, to: nat,
                                             moves: seq<Move<E>>, play: (S, seq<E>) -> seq<E>)
    requires from <= to <= |es| < |ss| && |es'| < |ss'| && ss <= ss' && es <= es'
    requires Traced(ss, es, from, to, moves, play)
    ensures Traced(ss', es', from, to, moves, play)
    decreases |moves|
  {
    if moves != [] {
      var init := moves[..|moves| - 1];
      match moves[|moves| - 1]
      case Act(e) =>
        TracedStays(ss, es, ss', es', from, to - 1, init, play);
      case Others(segment) =>
        var p: nat :| from <= p <= to && es[p..to] == play(ss[p], segment) && Traced(ss, es, from, p, init, play);
        TracedStays(ss, es, ss', es', from, p, init, play);
        assert es'[p..to] == es[p..to] && ss'[p] == ss[p];
    }
  }

  /** The thread takes a step. */
  lemma ActTraced<S, E>(ss: seq<S>, es: seq<E>, ss': seq<S>, es': seq<E>, from: nat, moves: seq<Move<E>>,
                        play: (S, seq<E>) -> seq<E>, e: E)
    requires TracedFrom(ss, es, from, moves, play) && |ss'| == |es'| + 1 && ss <= ss' && es' == es + [e]
    ensures TracedFrom(ss', es', from, moves + [Act(e)], play)
  {
    TracedStays(ss, es, ss', es', from, |es|, moves, play);
    assert (moves + [Act(e)])[..|moves|] == moves;
  }

  /** The others run for a while. */
  lemma OthersTraced<S, E>(ss: seq<S>, es: seq<E>, ss': seq<S>, es': seq<E>, from: nat, moves: seq<Move<E>>,
                           play: (S, seq<E>) -> seq<E>, segment: seq<E>)
    requires TracedFrom(ss, es, from, moves, play) && |ss'| == |es'| + 1 && ss <= ss'
    requires es' == es + play(ss[|es|], segment)
    ensures TracedFrom(ss', es', from, moves + [Others(segment)], play)
  {
    TracedStays(ss, es, ss', es', from, |es|, moves, play);
    assert (moves + [Others(segment)])[..|moves|] == moves;
    assert ss'[|es|] == ss[|es|] && es'[|es|..|es'|] == play(ss'[|es|], segment);
  }

  /** One part of an operation after another. */
  lemma {:induction false} PartsTraced<S, E>(ss: seq<S>, es: seq<E>, from: nat, mid: nat, to: nat, first: seq<Move<E>>,
                                             second: seq<Move<E>>, play: (S, seq<E>) -> seq<E>)
    requires from <= mid <= to <= |es| < |ss|
    requires Traced(ss, es, from, mid, first, play) && Traced(ss, es, mid, to, second, play)
    ensures Traced(ss, es, from, to, first + second, play)
    decreases |second|
  {
    if second == [] {
      assert first + second == first;
    } else {
      var init, x := second[..|second| - 1], second[|second| - 1];
      assert (first + second)[..|first + second| - 1] == first + init && (first + second)[|first + second| - 1] == x;
      match x
      case Act(e) =>
        PartsTraced(ss, es, from, mid, to - 1, first, init, play);
      case Others(segment) =>
        var p: nat :| mid <= p <= to && es[p..to] == play(ss[p], segment) && Traced(ss, es, mid, p, init, play);
        PartsTraced(ss, es, from, mid, p, first, init, play);
    }
  }

  lemma PartTraced<S, E>(ss: seq<S>, es: seq<E>, ss': seq<S>, es': seq<E>, from: nat, first: seq<Move<E>>,
                         second: seq<Move<E>>, play: (S, seq<E>) -> seq<E>)
    requires TracedFrom(ss, es, from, first, play) && TracedFrom(ss', es', |es|, second, play) && ss <= ss' && es <= es'
    ensures TracedFrom(ss', es', from, first + second, play)
  {
    TracedStays(ss, es, ss', es', from, |es|, first, play);
    PartsTraced(ss', es', from, |es|, |es'|, first, second, play);
  }

  /** The segments in which the others run, in order. */
  ghost function OthersOf<E>(moves: seq<Move<E>>): seq<seq<E>> {
    if moves == [] then []
    else
      var init := OthersOf(moves[..|moves| - 1]);
      match moves[|moves| - 1]
      case Act(_) => init
      case Others(segment) => init + [segment]
  }

  lemma OneMove<E>(moves: seq<Move<E>>, m: Move<E>)
    ensures OthersOf(moves + [m]) == OthersOf(moves) + if m.Act? then [] else [m.segment]
  {
    assert (moves + [m])[..|moves|] == moves;
  }

  lemma {:induction false} OthersOfParts<E>(first: seq<Move<E>>, second: seq<Move<E>>)
    ensures OthersOf(first + second) == OthersOf(first) + OthersOf(second)
    decreases |second|
  {
    if second == [] {
      assert first + second == first;
    } else {
      assert (first + second)[..|first + second| - 1] == first + second[..|second| - 1];
      OthersOfParts(first, second[..|second| - 1]);
    }
  }

  /** Every step is an act of the thread's or comes from one of the segments. */
  ghost predicate Accounted<E>(moves: seq<Move<E>>, e: E) {
    Act(e) in moves || exists segment {:trigger segment in OthersOf(moves)} | segment in OthersOf(moves) :: e in segment
  }

  lemma {:induction false} AllAccounted<S(!new), E(!new)>(ss: seq<S>, es: seq<E>, from: nat, to: nat, moves: seq<Move<E>>,
                                                          play: (S, seq<E>) -> seq<E>)
    requires from <= to <= |es| < |ss| && Traced(ss, es, from, to, moves, play)
    requires forall s, segment, e | e in play(s, segment) :: e in segment
    ensures forall k | from <= k < to :: Accounted(moves, es[k])
    decreases |moves|
  {
    if moves != [] {
      var init, x := moves[..|moves| - 1], moves[|moves| - 1];
      assert moves == init + [x];
      OneMove(init, x);
      match x
      case Act(e) =>
        AllAccounted(ss, es, from, to - 1, init, play);
      case Others(segment) =>
        var p: nat :| from <= p <= to && es[p..to] == play(ss[p], segment) && Traced(ss, es, from, p, init, play);
        AllAccounted(ss, es, from, p, init, play);
        forall k | from <= k < to
          ensures Accounted(moves, es[k])
        {
          if k < p {
            AccountedOn(init, x, es[k]);
          } else {
            assert es[k] == es[p..to][k - p] && es[k] in play(ss[p], segment);
            assert segment in OthersOf(moves);
          }
        }
    }
  }

  lemma AccountedOn<E>(moves: seq<Move<E>>, m: Move<E>, e: E)
    requires Accounted(moves, e)
    ensures Accounted(moves + [m], e)
  {
    OneMove(moves, m);
    if Act(e) !in moves {
      var segment :| segment in OthersOf(moves) && e in segment;
      assert segment in OthersOf(moves + [m]);
    }
  }
}
