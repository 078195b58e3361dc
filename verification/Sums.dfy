/** Sums of weights over a sequence. */
module Sums {

  function Sum<T>(xs: seq<T>, w: T -> nat): nat {
    if |xs| == 0 then 0 else Sum(xs[..|xs| - 1], w) + w(xs[|xs| - 1])
  }

  lemma SumAppend<T>(xs: seq<T>, x: T, w: T -> nat)
    ensures Sum(xs + [x], w) == Sum(xs, w) + w(x)
  {
    assert (xs + [x])[..|xs|] == xs;
  }

  lemma {:induction false} SumUpdate<T>(xs: seq<T>, i: nat, x: T, w: T -> nat)
    requires i < |xs|
    ensures Sum(xs[i := x], w) + w(xs[i]) == Sum(xs, w) + w(x)
    ensures Sum(xs, w) >= w(xs[i])
  {
    var n := |xs| - 1;
    if i < n {
      SumUpdate(xs[..n], i, x, w);
      assert xs[i := x][..n] == xs[..n][i := x];
    } else {
      assert xs[i := x][..n] == xs[..n];
    }
  }

  /** If each weight grows by at most `d`, the sum grows by at most `d` for each element. */
  lemma {:induction false} SumGrowth<T>(xs: seq<T>, ys: seq<T>, w: T -> nat, d: nat)
    requires |xs| == |ys|
    requires forall i :: 0 <= i < |xs| ==> w(ys[i]) <= w(xs[i]) + d
    ensures Sum(ys, w) <= Sum(xs, w) + d * |xs|
  {
    if |xs| > 0 {
      var n := |xs| - 1;
      SumGrowth(xs[..n], ys[..n], w, d);
    }
  }

  lemma {:induction false} SumSame<T>(xs: seq<T>, ys: seq<T>, w: T -> nat)
    requires |xs| == |ys|
    requires forall i :: 0 <= i < |xs| ==> w(ys[i]) == w(xs[i])
    ensures Sum(ys, w) == Sum(xs, w)
  {
    if |xs| > 0 {
      SumSame(xs[..|xs| - 1], ys[..|xs| - 1], w);
    }
  }
}
