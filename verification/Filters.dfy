/** Order-preserving selection from a sequence, and what it does to multiplicities. */
module Filters {

  function Filter<T(!new)>(xs: seq<T>, keep: T -> bool): (ys: seq<T>)
    ensures |ys| <= |xs|
  {
    if xs == [] then []
    else if keep(xs[0]) then [xs[0]] + Filter(xs[1..], keep)
    else Filter(xs[1..], keep)
  }

  lemma {:induction false} FilterMembers<T(!new)>(xs: seq<T>, keep: T -> bool)
    ensures forall y :: y in Filter(xs, keep) <==> y in xs && keep(y)
  {
    if xs != [] {
      FilterMembers(xs[1..], keep);
      assert xs == [xs[0]] + xs[1..];
    }
  }

  lemma {:induction false} FilterAppend<T(!new)>(xs: seq<T>, ys: seq<T>, keep: T -> bool)
    ensures Filter(xs + ys, keep) == Filter(xs, keep) + Filter(ys, keep)
  {
    if xs == [] {
      assert xs + ys == ys;
    } else {
      var rest := xs[1..];
      FilterAppend(rest, ys, keep);
      assert (xs + ys)[1..] == rest + ys && (xs + ys)[0] == xs[0];
      if keep(xs[0]) {
        assert [xs[0]] + (Filter(rest, keep) + Filter(ys, keep)) == ([xs[0]] + Filter(rest, keep)) + Filter(ys, keep);
      }
    }
  }

  lemma {:induction false} FilterCount<T(!new)>(xs: seq<T>, keep: T -> bool, x: T)
    ensures multiset(Filter(xs, keep))[x] == if keep(x) then multiset(xs)[x] else 0
  {
    if xs != [] {
      FilterCount(xs[1..], keep, x);
      assert xs == [xs[0]] + xs[1..];
      if keep(xs[0]) {
        assert multiset(Filter(xs, keep)) == multiset{xs[0]} + multiset(Filter(xs[1..], keep));
      }
    }
  }

  lemma FilterPermutation<T(!new)>(xs: seq<T>, ys: seq<T>, keep: T -> bool)
    requires multiset(xs) == multiset(ys)
    ensures multiset(Filter(xs, keep)) == multiset(Filter(ys, keep))
  {
    forall x: T ensures multiset(Filter(xs, keep))[x] == multiset(Filter(ys, keep))[x] {
      FilterCount(xs, keep, x);
      FilterCount(ys, keep, x);
    }
  }

  lemma {:induction false} FilterCongruence<T(!new)>(xs: seq<T>, keep: T -> bool, keep': T -> bool)
    requires forall x :: x in xs ==> keep(x) == keep'(x)
    ensures Filter(xs, keep) == Filter(xs, keep')
  {
    if xs != [] {
      FilterCongruence(xs[1..], keep, keep');
    }
  }

  lemma {:induction false} FilterTwice<T(!new)>(xs: seq<T>, first: T -> bool, second: T -> bool, both: T -> bool)
    requires forall x :: both(x) == (first(x) && second(x))
    ensures Filter(Filter(xs, first), second) == Filter(xs, both)
  {
    if xs != [] {
      FilterTwice(xs[1..], first, second, both);
      if first(xs[0]) {
        assert Filter(xs, first)[1..] == Filter(xs[1..], first);
      }
    }
  }

  function Map<T(!new), U(!new)>(xs: seq<T>, f: T -> U): (ys: seq<U>)
    ensures |ys| == |xs| && forall i :: 0 <= i < |xs| ==> ys[i] == f(xs[i])
  {
    if xs == [] then [] else [f(xs[0])] + Map(xs[1..], f)
  }

  lemma {:induction false} MapAppend<T(!new), U(!new)>(xs: seq<T>, ys: seq<T>, f: T -> U)
    ensures Map(xs + ys, f) == Map(xs, f) + Map(ys, f)
  {
    assert forall i :: 0 <= i < |xs + ys| ==> Map(xs + ys, f)[i] == (Map(xs, f) + Map(ys, f))[i];
  }

  function Without<T(!new)>(xs: seq<T>, i: nat): seq<T>
    requires i < |xs|
  {
    xs[..i] + xs[i + 1..]
  }

  lemma WithoutOne<T(!new)>(xs: seq<T>, i: nat)
    requires i < |xs|
    ensures multiset(xs) == multiset{xs[i]} + multiset(Without(xs, i))
  {
    assert xs == xs[..i] + ([xs[i]] + xs[i + 1..]);
  }

  lemma MapWithout<T(!new), U(!new)>(xs: seq<T>, i: nat, f: T -> U)
    requires i < |xs|
    ensures Map(Without(xs, i), f) == Without(Map(xs, f), i)
  {
    MapAppend(xs[..i], xs[i + 1..], f);
    MapSlices(xs, i, f);
  }

  lemma MapSlices<T(!new), U(!new)>(xs: seq<T>, i: nat, f: T -> U)
    requires i < |xs|
    ensures Map(xs[..i], f) == Map(xs, f)[..i] && Map(xs[i + 1..], f) == Map(xs, f)[i + 1..]
  {
    var tail := xs[i + 1..];
    var mapped, wanted := Map(tail, f), Map(xs, f)[i + 1..];
    forall k | 0 <= k < |tail| ensures mapped[k] == wanted[k] {
      assert tail[k] == xs[i + 1 + k];
    }
  }

  lemma {:induction false} MapPermutation<T(!new), U(!new)>(xs: seq<T>, ys: seq<T>, f: T -> U)
    requires multiset(xs) == multiset(ys)
    ensures multiset(Map(xs, f)) == multiset(Map(ys, f))
  {
    assert |multiset(xs)| == |xs| && |multiset(ys)| == |ys|;
    if xs != [] {
      assert xs[0] in multiset(ys);
      var i :| 0 <= i < |ys| && ys[i] == xs[0];
      WithoutOne(xs, 0);
      WithoutOne(ys, i);
      assert multiset(Without(xs, 0)) == multiset(xs) - multiset{xs[0]};
      assert multiset(Without(ys, i)) == multiset(ys) - multiset{ys[i]};
      MapPermutation(Without(xs, 0), Without(ys, i), f);
      MapWithout(xs, 0, f);
      MapWithout(ys, i, f);
      WithoutOne(Map(xs, f), 0);
      WithoutOne(Map(ys, f), i);
    }
  }

  lemma SingletonPermutation<T(!new)>(xs: seq<T>, ys: seq<T>)
    requires multiset(xs) == multiset(ys)
    ensures |xs| == |ys|
    ensures |xs| == 1 ==> xs == ys
  {
    assert |multiset(xs)| == |xs| && |multiset(ys)| == |ys|;
    if |xs| == 1 {
      assert xs[0] in multiset(ys);
    }
  }
}
