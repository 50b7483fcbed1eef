// Sums over sequences of naturals: how one update moves the total.
module Sums {

  function Sum(xs: seq<nat>): nat {
    if |xs| == 0 then 0 else xs[0] + Sum(xs[1..])
  }

  lemma {:induction false} SumUpdate(xs: seq<nat>, i: nat, v: nat)
    requires i < |xs|
    ensures Sum(xs[i := v]) + xs[i] == Sum(xs) + v
  {
    if i == 0 {
      assert xs[0 := v][1..] == xs[1..];
    } else {
      assert xs[i := v][1..] == xs[1..][i - 1 := v];
      SumUpdate(xs[1..], i - 1, v);
    }
  }

  lemma {:induction false} SumAtMost(xs: seq<nat>, b: nat)
    requires forall i :: 0 <= i < |xs| ==> xs[i] <= b
    ensures Sum(xs) <= |xs| * b
  {
    if |xs| > 0 {
      SumAtMost(xs[1..], b);
      assert |xs| * b == (|xs| - 1) * b + b;
    }
  }

  lemma {:induction false} SumOfOnes(xs: seq<nat>)
    requires forall i :: 0 <= i < |xs| ==> xs[i] == 1
    ensures Sum(xs) == |xs|
  {
    if |xs| > 0 { SumOfOnes(xs[1..]); }
  }

  lemma {:induction false} SumHasMember(xs: seq<nat>, i: nat)
    requires i < |xs|
    ensures xs[i] <= Sum(xs)
  {
    if i > 0 { SumHasMember(xs[1..], i - 1); }
  }

  lemma {:induction false} SumZero(xs: seq<nat>)
    ensures Sum(xs) == 0 <==> forall i :: 0 <= i < |xs| ==> xs[i] == 0
  {
    if |xs| > 0 {
      SumZero(xs[1..]);
      assert forall i :: 0 < i < |xs| ==> xs[i] == xs[1..][i - 1];
    }
  }

  lemma {:induction false} SumMonotone(xs: seq<nat>, ys: seq<nat>)
    requires |xs| == |ys|
    requires forall i :: 0 <= i < |xs| ==> xs[i] <= ys[i]
    ensures Sum(xs) <= Sum(ys)
    ensures (exists i :: 0 <= i < |xs| && xs[i] < ys[i]) ==> Sum(xs) < Sum(ys)
  {
    if |xs| > 0 {
      SumMonotone(xs[1..], ys[1..]);
      if i :| 0 <= i < |xs| && xs[i] < ys[i] {
        assert i > 0 ==> xs[1..][i - 1] < ys[1..][i - 1];
      }
    }
  }

  lemma {:induction false} SumWithin(xs: seq<nat>, ys: seq<nat>, b: nat)
    requires |xs| == |ys|
    requires forall i :: 0 <= i < |xs| ==> ys[i] <= xs[i] + b
    ensures Sum(ys) <= Sum(xs) + |xs| * b
  {
    if |xs| > 0 {
      SumWithin(xs[1..], ys[1..], b);
      assert |xs| * b == (|xs| - 1) * b + b;
    }
  }

  // The numbers below n are n many; a set of them has at most n elements.
  lemma {:induction false} BelowBound(s: set<nat>, n: nat)
    requires forall j :: j in s ==> j < n
    ensures |s| <= n
  {
    if n == 0 {
      assert s == {};
    } else {
      BelowBound(s - {n - 1}, n - 1);
      if n - 1 in s { assert s == (s - {n - 1}) + {n - 1}; } else { assert s - {n - 1} == s; }
    }
  }
}
