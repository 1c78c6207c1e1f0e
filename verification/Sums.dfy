/** Sums over a sequence, of which a step changes one or two entries. */
module Sums {
  function Sum(xs: seq<nat>, n: nat): nat
    requires n <= |xs|
  {
    if n == 0 then 0 else Sum(xs, n - 1) + xs[n - 1]
  }

  lemma {:induction false} SumTwo(xs: seq<nat>, ys: seq<nat>, a: nat, b: nat, n: nat)
    requires |xs| == |ys| && n <= |xs| && a < |xs| && b < |xs|
    requires forall u :: 0 <= u < |xs| && u != a && u != b ==> ys[u] == xs[u]
    ensures Sum(ys, n) + (if a < n then xs[a] else 0) + (if b < n && b != a then xs[b] else 0)
            == Sum(xs, n) + (if a < n then ys[a] else 0) + (if b < n && b != a then ys[b] else 0)
  {
    if n > 0 { SumTwo(xs, ys, a, b, n - 1); }
  }

  lemma {:induction false} SumBound(xs: seq<nat>, n: nat)
    requires n <= |xs| && forall u :: 0 <= u < |xs| ==> xs[u] <= 1
    ensures Sum(xs, n) <= n
  {
    if n > 0 { SumBound(xs, n - 1); }
  }

  lemma {:induction false} SumMember(xs: seq<nat>, a: nat, n: nat)
    requires a < n <= |xs|
    ensures xs[a] <= Sum(xs, n)
  {
    if a < n - 1 { SumMember(xs, a, n - 1); }
  }

  lemma {:induction false} SumZero(xs: seq<nat>, n: nat)
    requires n <= |xs| && forall u :: 0 <= u < |xs| ==> xs[u] == 0
    ensures Sum(xs, n) == 0
  {
    if n > 0 { SumZero(xs, n - 1); }
  }
}
