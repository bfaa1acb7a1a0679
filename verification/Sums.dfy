/** Sums over a sequence, for measures of what the threads of a machine have still to do. */
module Sums {
  function Sum<T>(xs: seq<T>, rank: T -> nat): nat { if xs == [] then 0 else rank(xs[0]) + Sum(xs[1..], rank) }

  lemma {:induction false} SumUpdate<T>(xs: seq<T>, i: nat, x: T, rank: T -> nat)
    requires i < |xs|
    ensures Sum(xs[i := x], rank) == Sum(xs, rank) - rank(xs[i]) + rank(x)
    decreases |xs|
  {
    if i == 0 {
      assert xs[0 := x][1..] == xs[1..];
    } else {
      assert xs[i := x][1..] == xs[1..][i - 1 := x];
      SumUpdate(xs[1..], i - 1, x, rank);
    }
  }
}
