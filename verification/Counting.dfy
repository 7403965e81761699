/**
 Sums and counts over the threads of a protocol.
 */
module Counting {

  function Sum<T>(xs: seq<T>, f: T -> nat): nat
  {
    if xs == [] then 0 else f(xs[0]) + Sum(xs[1..], f)
  }

  lemma {:induction false} SumUpdate<T>(xs: seq<T>, i: nat, x: T, f: T -> nat)
    requires i < |xs|
    ensures Sum(xs[i := x], f) == Sum(xs, f) - f(xs[i]) + f(x)
    ensures f(xs[i]) <= Sum(xs, f)
  {
    if i == 0 {
      assert xs[0 := x][1..] == xs[1..];
    } else {
      SumUpdate(xs[1..], i - 1, x, f);
      assert xs[i := x][1..] == xs[1..][i - 1 := x];
    }
  }

  lemma {:induction false} SumConst<T>(xs: seq<T>, f: T -> nat, k: nat)
    requires forall x :: x in xs ==> f(x) == k
    ensures Sum(xs, f) == |xs| * k
  {
    if xs != [] {
      SumConst(xs[1..], f, k);
    }
  }

  lemma {:induction false} SumAtMost<T>(xs: seq<T>, f: T -> nat, k: nat)
    requires forall x :: x in xs ==> f(x) <= k
    ensures Sum(xs, f) <= |xs| * k
  {
    if xs != [] {
      SumAtMost(xs[1..], f, k);
    }
  }

  function Count<T>(xs: seq<T>, p: T -> bool): nat
  {
    if xs == [] then 0 else (if p(xs[0]) then 1 else 0) + Count(xs[1..], p)
  }

  function I(b: bool): int { if b then 1 else 0 }

  lemma {:induction false} CountUpdate<T>(xs: seq<T>, i: nat, x: T, p: T -> bool)
    requires i < |xs|
    ensures Count(xs[i := x], p) == Count(xs, p) - I(p(xs[i])) + I(p(x))
    ensures p(xs[i]) ==> Count(xs, p) > 0
  {
    if i == 0 {
      assert xs[0 := x][1..] == xs[1..];
    } else {
      CountUpdate(xs[1..], i - 1, x, p);
      assert xs[i := x][1..] == xs[1..][i - 1 := x];
    }
  }

  lemma {:induction false} CountWitness<T>(xs: seq<T>, p: T -> bool)
    ensures Count(xs, p) > 0 <==> exists i :: 0 <= i < |xs| && p(xs[i])
  {
    if xs != [] {
      CountWitness(xs[1..], p);
      if i :| 0 <= i < |xs| && p(xs[i]) {
        assert i == 0 || xs[1..][i - 1] == xs[i];
      }
      if i :| 0 <= i < |xs[1..]| && p(xs[1..][i]) {
        assert p(xs[i + 1]);
      }
    }
  }

  lemma NoneCount<T>(xs: seq<T>, p: T -> bool)
    requires forall i :: 0 <= i < |xs| ==> !p(xs[i])
    ensures Count(xs, p) == 0
  {
    CountWitness(xs, p);
  }

  lemma {:induction false} CountSubset<T>(xs: seq<T>, p: T -> bool, q: T -> bool)
    requires forall x :: x in xs && p(x) ==> q(x)
    ensures Count(xs, p) <= Count(xs, q)
    ensures forall i :: 0 <= i < |xs| && q(xs[i]) && !p(xs[i]) ==> Count(xs, p) < Count(xs, q)
  {
    if xs != [] {
      CountSubset(xs[1..], p, q);
      forall i | 0 <= i < |xs| && q(xs[i]) && !p(xs[i])
        ensures Count(xs, p) < Count(xs, q)
      {
        assert i == 0 || xs[1..][i - 1] == xs[i];
      }
    }
  }
}
