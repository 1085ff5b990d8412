// Types and small facts shared by the models of both accessors.

module Common {

  datatype Option<+T> = None | Some(value: T)

  const U32_SIZE: int := 0x1_0000_0000

  type u32 = x: int | 0 <= x < U32_SIZE

  newtype byte = x: int | 0 <= x < 256

  /** C's unsigned increment and decrement, with wrap-around. */
  function Inc32(x: u32): u32 {
    if x == U32_SIZE - 1 then 0 else x + 1
  }

  function Dec32(x: u32): u32 {
    if x == 0 then U32_SIZE - 1 else x - 1
  }

  /** request_stat_t, in the order of the C enumeration. */
  datatype Status = Init | Submitted | IoSuccess | IoFail | Cancel {
    predicate Final() {
      IoSuccess? || IoFail? || Cancel?
    }
  }

  datatype Direction = Read | Write

  const MAX_RETRY_TIMES: nat := 2

  /** The sum of f over a sequence. */
  ghost function Sum<T>(xs: seq<T>, f: T -> nat): nat {
    if xs == [] then 0 else f(xs[0]) + Sum(xs[1..], f)
  }

  lemma {:induction false} SumUpdate<T>(xs: seq<T>, k: nat, x: T, f: T -> nat)
    requires k < |xs|
    ensures Sum(xs[k := x], f) + f(xs[k]) == Sum(xs, f) + f(x)
  {
    if k == 0 {
      assert xs[0 := x][1..] == xs[1..];
    } else {
      assert xs[k := x][1..] == xs[1..][k - 1 := x];
      SumUpdate(xs[1..], k - 1, x, f);
    }
  }

  /** Pointwise growth by at most one carries over to the sums; it is strict as soon as one element grew. */
  lemma {:induction false} SumGrows<T>(xs: seq<T>, ys: seq<T>, f: T -> nat)
    requires |xs| == |ys|
    requires forall i | 0 <= i < |xs| :: f(xs[i]) <= f(ys[i]) <= f(xs[i]) + 1
    ensures Sum(xs, f) <= Sum(ys, f) <= Sum(xs, f) + |xs|
    ensures (exists i | 0 <= i < |xs| :: f(xs[i]) < f(ys[i])) ==> Sum(xs, f) < Sum(ys, f)
    ensures (forall i | 0 <= i < |xs| :: f(xs[i]) == f(ys[i])) ==> Sum(xs, f) == Sum(ys, f)
  {
    if xs != [] {
      SumGrows(xs[1..], ys[1..], f);
      if exists i | 0 <= i < |xs| :: f(xs[i]) < f(ys[i]) {
        var i :| 0 <= i < |xs| && f(xs[i]) < f(ys[i]);
        if i > 0 {
          assert xs[1..][i - 1] == xs[i] && ys[1..][i - 1] == ys[i];
        }
      }
      if forall i | 0 <= i < |xs| :: f(xs[i]) == f(ys[i]) {
        assert forall i | 0 <= i < |xs[1..]| :: f(xs[1..][i]) == f(ys[1..][i]);
      }
    }
  }

  /** A sum of ordered terms is ordered; in particular a sum of zeros and ones counts at most every element. */
  lemma {:induction false} SumOrdered<T>(xs: seq<T>, f: T -> nat, g: T -> nat)
    requires forall i | 0 <= i < |xs| :: f(xs[i]) <= g(xs[i])
    ensures Sum(xs, f) <= Sum(xs, g)
    ensures (forall i | 0 <= i < |xs| :: g(xs[i]) <= 1) ==> Sum(xs, g) <= |xs|
  {
    if xs != [] {
      SumOrdered(xs[1..], f, g);
    }
  }

  lemma {:induction false} SumOfZeros<T>(xs: seq<T>, f: T -> nat)
    requires forall i | 0 <= i < |xs| :: f(xs[i]) == 0
    ensures Sum(xs, f) == 0
  {
    if xs != [] {
      SumOfZeros(xs[1..], f);
    }
  }

  /** A positive sum has a positive term. */
  lemma {:induction false} SumWitness<T>(xs: seq<T>, f: T -> nat) returns (k: nat)
    requires Sum(xs, f) > 0
    ensures k < |xs| && f(xs[k]) > 0
  {
    if f(xs[0]) > 0 {
      k := 0;
    } else {
      k := SumWitness(xs[1..], f);
      k := k + 1;
    }
  }

  /** How often something happens in the steps of a run from one point to a later one. */
  ghost function Count<S, E>(ss: seq<S>, es: seq<E>, from: nat, to: nat, f: (S, E) -> nat): nat
    requires from <= to <= |es| < |ss|
  {
    if from == to then 0 else Count(ss, es, from, to - 1, f) + f(ss[to - 1], es[to - 1])
  }

  lemma {:induction false} CountNone<S, E>(ss: seq<S>, es: seq<E>, from: nat, to: nat, f: (S, E) -> nat)
    requires from <= to <= |es| < |ss| && Count(ss, es, from, to, f) == 0
    ensures forall j | from <= j < to :: f(ss[j], es[j]) == 0
  {
    if from < to {
      CountNone(ss, es, from, to - 1, f);
    }
  }

  lemma {:induction false} CountWitness<S, E>(ss: seq<S>, es: seq<E>, from: nat, to: nat, f: (S, E) -> nat) returns (j: nat)
    requires from <= to <= |es| < |ss| && Count(ss, es, from, to, f) > 0
    ensures from <= j < to && f(ss[j], es[j]) > 0
  {
    if f(ss[to - 1], es[to - 1]) > 0 {
      j := to - 1;
    } else {
      j := CountWitness(ss, es, from, to - 1, f);
    }
  }
}
