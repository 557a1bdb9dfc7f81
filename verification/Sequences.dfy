/** Sequences of acceptance numbers: order, filters, merges and subsequences; and the size of sets. */
module Sequences {
  ghost predicate Increasing(xs: seq<nat>) {
    forall i, j :: 0 <= i < j < |xs| ==> xs[i] < xs[j]
  }

  function Range(n: nat): (r: seq<nat>)
    ensures |r| == n && forall i :: 0 <= i < n ==> r[i] == i
  {
    seq(n, i => i)
  }

  function Count(xs: seq<nat>, x: nat): nat {
    if xs == [] then 0 else Count(xs[..|xs| - 1], x) + (if xs[|xs| - 1] == x then 1 else 0)
  }

  lemma {:induction false} CountConcat(xs: seq<nat>, ys: seq<nat>, x: nat)
    ensures Count(xs + ys, x) == Count(xs, x) + Count(ys, x)
  {
    if ys == [] {
      assert xs + ys == xs;
    } else {
      assert (xs + ys)[..|xs + ys| - 1] == xs + ys[..|ys| - 1];
      CountConcat(xs, ys[..|ys| - 1], x);
    }
  }

  lemma {:induction false} CountPositive(xs: seq<nat>, x: nat)
    ensures Count(xs, x) > 0 <==> x in xs
  {
    if xs == [] {
    } else {
      CountPositive(xs[..|xs| - 1], x);
      assert xs == xs[..|xs| - 1] + [xs[|xs| - 1]];
    }
  }

  /** `z` interleaves `x` and `y`, keeping the order of each. */
  ghost predicate IsMerge(z: seq<nat>, x: seq<nat>, y: seq<nat>)
    decreases |z|
  {
    if z == [] then x == [] && y == []
    else
      var z', last := z[..|z| - 1], z[|z| - 1];
      || (x != [] && x[|x| - 1] == last && IsMerge(z', x[..|x| - 1], y))
      || (y != [] && y[|y| - 1] == last && IsMerge(z', x, y[..|y| - 1]))
  }

  /** The elements of `xs` that satisfy `f`, in order. */
  function Filter(xs: seq<nat>, f: nat -> bool): seq<nat> {
    if xs == [] then [] else
    var before, last := Filter(xs[..|xs| - 1], f), xs[|xs| - 1];
    if f(last) then before + [last] else before
  }

  lemma {:induction false} FilterMembers(xs: seq<nat>, f: nat -> bool, x: nat)
    ensures x in Filter(xs, f) <==> x in xs && f(x)
  {
    if xs == [] {
    } else {
      FilterMembers(xs[..|xs| - 1], f, x);
      assert xs == xs[..|xs| - 1] + [xs[|xs| - 1]];
    }
  }

  lemma {:induction false} MergeWithNothing(z: seq<nat>, x: seq<nat>)
    requires IsMerge(z, x, [])
    ensures z == x
  {
    if z == [] {
    } else {
      MergeWithNothing(z[..|z| - 1], x[..|x| - 1]);
    }
  }

  /** `x` is `y` with some elements left out. */
  ghost predicate IsSubsequence(x: seq<nat>, y: seq<nat>)
    decreases |y|
  {
    || x == []
    || (y != [] && IsSubsequence(if x[|x| - 1] == y[|y| - 1] then x[..|x| - 1] else x, y[..|y| - 1]))
  }

  lemma {:induction false} IncreasingIsSubsequence(x: seq<nat>, y: seq<nat>)
    requires Increasing(x) && Increasing(y) && forall e :: e in x ==> e in y
    ensures IsSubsequence(x, y)
    decreases |y|
  {
    if x == [] {
    } else {
      assert x[|x| - 1] in y;
      var x', y' := if x[|x| - 1] == y[|y| - 1] then x[..|x| - 1] else x, y[..|y| - 1];
      forall e | e in x'
        ensures e in y'
      {
        assert e in x && e in y && e != y[|y| - 1];
        assert y == y' + [y[|y| - 1]];
      }
      IncreasingIsSubsequence(x', y');
    }
  }

  lemma {:induction false} IncreasingUnique(x: seq<nat>, y: seq<nat>)
    requires Increasing(x) && Increasing(y) && forall e :: e in x <==> e in y
    ensures x == y
    decreases |y|
  {
    assert x == [] <==> y == [] by {
      if x != [] {
        assert x[0] in y;
      }
      if y != [] {
        assert y[0] in x;
      }
    }
    if x == [] {
    } else {
      assert x[|x| - 1] in y && y[|y| - 1] in x;
      var last := x[|x| - 1];
      assert last == y[|y| - 1];
      var x', y' := x[..|x| - 1], y[..|y| - 1];
      assert x == x' + [last] && y == y' + [last];
      forall e
        ensures e in x' <==> e in y'
      {
        assert e in x' <==> e in x && e != last;
        assert e in y' <==> e in y && e != last;
      }
      IncreasingUnique(x', y');
    }
  }

  lemma {:induction false} SubsetSize(x: set<nat>, y: set<nat>)
    requires x <= y
    ensures |x| <= |y|
  {
    if x == {} {
    } else {
      var e :| e in x;
      SubsetSize(x - {e}, y - {e});
    }
  }
}
