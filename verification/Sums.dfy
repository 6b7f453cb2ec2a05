/** Finite sums over sequences, the bookkeeping every conservation law below rests on. */
module Sums {

  ghost function Sum<T>(xs: seq<T>, f: T -> int): int
  {
    if xs == [] then 0 else f(xs[0]) + Sum(xs[1..], f)
  }

  ghost predicate Distinct<T>(xs: seq<T>)
  {
    forall i, j :: 0 <= i < j < |xs| ==> xs[i] != xs[j]
  }

  lemma {:induction false} SumUpdate<T>(xs: seq<T>, i: nat, x: T, f: T -> int)
    requires i < |xs|
    ensures Sum(xs[i := x], f) == Sum(xs, f) - f(xs[i]) + f(x)
  {
    if i == 0 {
      assert xs[i := x][1..] == xs[1..];
    } else {
      SumUpdate(xs[1..], i - 1, x, f);
      assert xs[i := x][1..] == xs[1..][i - 1 := x];
    }
  }

  lemma {:induction false} SumEqual<T>(xs: seq<T>, f: T -> int, g: T -> int)
    requires forall x :: x in xs ==> f(x) == g(x)
    ensures Sum(xs, f) == Sum(xs, g)
  {
    if xs != [] {
      assert xs[0] in xs;
      SumEqual(xs[1..], f, g);
    }
  }

  lemma {:induction false} SumChange<T>(xs: seq<T>, k: nat, f: T -> int, g: T -> int)
    requires k < |xs| && Distinct(xs)
    requires forall x :: x in xs && x != xs[k] ==> f(x) == g(x)
    ensures Sum(xs, g) == Sum(xs, f) - f(xs[k]) + g(xs[k])
  {
    if k == 0 {
      SumEqual(xs[1..], f, g);
    } else {
      assert xs[0] in xs && xs[0] != xs[k];
      SumChange(xs[1..], k - 1, f, g);
    }
  }

  lemma {:induction false} SumBounds<T>(xs: seq<T>, f: T -> int)
    requires forall x :: x in xs ==> 0 <= f(x)
    ensures 0 <= Sum(xs, f)
    ensures forall x :: x in xs ==> f(x) <= Sum(xs, f)
  {
    if xs != [] {
      assert xs[0] in xs;
      SumBounds(xs[1..], f);
    }
  }

  lemma {:induction false} SumZero<T>(xs: seq<T>, f: T -> int)
    requires forall x :: x in xs ==> f(x) == 0
    ensures Sum(xs, f) == 0
  {
    if xs != [] {
      assert xs[0] in xs;
      SumZero(xs[1..], f);
    }
  }

  lemma {:induction false} SumPlus<T>(xs: seq<T>, f: T -> int, g: T -> int, h: T -> int)
    requires forall x :: x in xs ==> h(x) == f(x) + g(x)
    ensures Sum(xs, h) == Sum(xs, f) + Sum(xs, g)
  {
    if xs != [] {
      assert xs[0] in xs;
      SumPlus(xs[1..], f, g, h);
    }
  }

  lemma {:induction false} SumOnes<T>(xs: seq<T>, f: T -> int)
    requires forall x :: x in xs ==> f(x) == 1
    ensures Sum(xs, f) == |xs|
  {
    if xs != [] {
      assert xs[0] in xs;
      SumOnes(xs[1..], f);
    }
  }

  lemma {:induction false} SumAppend<T>(xs: seq<T>, ys: seq<T>, f: T -> int)
    ensures Sum(xs + ys, f) == Sum(xs, f) + Sum(ys, f)
  {
    if xs == [] {
      assert xs + ys == ys;
    } else {
      SumAppend(xs[1..], ys, f);
      assert (xs + ys)[1..] == xs[1..] + ys;
    }
  }

  lemma {:induction false} DistinctSize<T>(xs: seq<T>)
    requires Distinct(xs)
    ensures |(set x | x in xs)| == |xs|
  {
    if xs != [] {
      var front, last := xs[..|xs| - 1], xs[|xs| - 1];
      DistinctSize(front);
      assert (set x | x in xs) == (set x | x in front) + {last};
    }
  }

  lemma {:induction false} SubrangeSize(s: set<nat>, n: nat)
    requires forall i :: i in s ==> i < n
    ensures |s| <= n
    ensures |s| == n ==> forall i: nat :: i < n ==> i in s
  {
    if n == 0 {
      assert s == {};
    } else {
      SubrangeSize(s - {n - 1}, n - 1);
    }
  }

  /** `n` distinct numbers below `n` are all of them. */
  lemma DistinctCovers(ids: seq<nat>, n: nat)
    requires Distinct(ids) && |ids| == n
    requires forall i :: i in ids ==> i < n
    ensures forall i: nat :: i < n ==> i in ids
  {
    DistinctSize(ids);
    var s := set i | i in ids;
    SubrangeSize(s, n);
    forall i: nat | i < n ensures i in ids { assert i in s; }
  }

  lemma BagRemove<T>(xs: seq<T>, k: nat)
    requires k < |xs|
    ensures multiset(xs[..k] + xs[k + 1..]) == multiset(xs) - multiset{xs[k]}
  {
    assert xs == xs[..k] + [xs[k]] + xs[k + 1..];
  }

  // ---------- sums that know the index ----------

  ghost function SumAt<T>(xs: seq<T>, f: (nat, T) -> int): int
  {
    if xs == [] then 0 else SumAt(xs[..|xs| - 1], f) + f(|xs| - 1, xs[|xs| - 1])
  }

  lemma {:induction false} SumAtUpdate<T>(xs: seq<T>, i: nat, x: T, f: (nat, T) -> int)
    requires i < |xs|
    ensures SumAt(xs[i := x], f) == SumAt(xs, f) - f(i, xs[i]) + f(i, x)
  {
    var last := |xs| - 1;
    if i == last {
      assert xs[i := x][..last] == xs[..last];
    } else {
      SumAtUpdate(xs[..last], i, x, f);
      assert xs[i := x][..last] == xs[..last][i := x];
    }
  }

  lemma SumAtPush<T>(xs: seq<T>, x: T, f: (nat, T) -> int)
    ensures SumAt(xs + [x], f) == SumAt(xs, f) + f(|xs|, x)
  {
    assert (xs + [x])[..|xs|] == xs;
  }

  lemma {:induction false} SumAtZero<T>(xs: seq<T>, f: (nat, T) -> int)
    requires forall i: nat :: i < |xs| ==> f(i, xs[i]) == 0
    ensures SumAt(xs, f) == 0
  {
    if xs != [] { SumAtZero(xs[..|xs| - 1], f); }
  }

  lemma {:induction false} SumAtBounds<T>(xs: seq<T>, f: (nat, T) -> int)
    requires forall i: nat :: i < |xs| ==> f(i, xs[i]) >= 0
    ensures SumAt(xs, f) >= 0
  {
    if xs != [] { SumAtBounds(xs[..|xs| - 1], f); }
  }
}
