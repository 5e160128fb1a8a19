/** Sums of an integer measure over a sequence. */
module Sums {

  function Sum<T>(f: T -> int, xs: seq<T>): int {
    if xs == [] then 0 else f(xs[0]) + Sum(f, xs[1..])
  }

  lemma {:induction false} SumUpdate<T>(f: T -> int, xs: seq<T>, i: nat, x: T)
    requires i < |xs|
    ensures Sum(f, xs[i := x]) == Sum(f, xs) - f(xs[i]) + f(x)
  {
    if i == 0 {
      assert xs[0 := x][1..] == xs[1..];
    } else {
      SumUpdate(f, xs[1..], i - 1, x);
      assert xs[i := x][1..] == xs[1..][i - 1 := x];
    }
  }

  lemma {:induction false} SumZero<T>(f: T -> int, xs: seq<T>)
    requires forall i | 0 <= i < |xs| :: f(xs[i]) == 0
    ensures Sum(f, xs) == 0
  {
    if xs != [] { SumZero(f, xs[1..]); }
  }

  lemma {:induction false} SumAllButLast<T>(f: T -> int, xs: seq<T>)
    requires xs != [] && forall i | 0 <= i < |xs| - 1 :: f(xs[i]) == 1
    ensures Sum(f, xs) == |xs| - 1 + f(xs[|xs| - 1])
  {
    if |xs| > 1 { SumAllButLast(f, xs[1..]); }
  }
}
