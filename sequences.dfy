/** Facts about sequences that the totals and the aggregation rely on:
    Python's sum over a list, splitting around one position, and mapping a
    function over a permutation. */
module Sequences {

  /** Python's built-in sum over a list of numbers: left to right from 0. */
  function Sum(xs: seq<real>): real
  {
    if xs == [] then 0.0 else Sum(xs[..|xs| - 1]) + xs[|xs| - 1]
  }

  /** The sum of a concatenation is the sum of the parts. */
  lemma {:induction false} SumAppend(xs: seq<real>, ys: seq<real>)
    ensures Sum(xs + ys) == Sum(xs) + Sum(ys)
  {
    if ys != [] {
      var n := |ys| - 1;
      assert (xs + ys)[..|xs + ys| - 1] == xs + ys[..n];
      SumAppend(xs, ys[..n]);
    } else {
      assert xs + ys == xs;
    }
  }

  /** Splitting a sequence around one position: the element at i and the
      rest make up the whole multiset. */
  lemma SplitAt<T>(s: seq<T>, i: int)
    requires 0 <= i < |s|
    ensures multiset(s) == multiset(s[..i] + s[i + 1..]) + multiset{s[i]}
  {
    SplitAround(s, i);
  }

  /** A sequence is what comes before position i, the element at i, and
      what comes after. */
  lemma SplitAround<T>(s: seq<T>, i: int)
    requires 0 <= i < |s|
    ensures s == (s[..i] + [s[i]]) + s[i + 1..]
  {
  }

  /** Removing the same element from two equal multisets leaves equal ones. */
  lemma MultisetCancel<T>(a: multiset<T>, b: multiset<T>, x: T)
    requires a + multiset{x} == b + multiset{x}
    ensures a == b
  {
    assert a == (a + multiset{x}) - multiset{x};
    assert b == (b + multiset{x}) - multiset{x};
  }

  /** f applied to each element, in order. */
  function Mapped<A, B>(s: seq<A>, f: A -> B): seq<B>
  {
    seq(|s|, i requires 0 <= i < |s| => f(s[i]))
  }

  /** Taking one element out takes its image out of the mapped multiset. */
  lemma MappedRemove<A, B>(s: seq<A>, i: int, f: A -> B)
    requires 0 <= i < |s|
    ensures multiset(Mapped(s, f)) == multiset(Mapped(s[..i] + s[i + 1..], f)) + multiset{f(s[i])}
  {
    assert Mapped(s, f) == Mapped(s[..i], f) + [f(s[i])] + Mapped(s[i + 1..], f);
    assert Mapped(s[..i] + s[i + 1..], f) == Mapped(s[..i], f) + Mapped(s[i + 1..], f);
  }

  /** Mapping two sequences with the same elements gives two sequences with
      the same elements. */
  lemma {:induction false} MappedPermutation<A, B>(a: seq<A>, b: seq<A>, f: A -> B)
    requires multiset(a) == multiset(b)
    ensures multiset(Mapped(a, f)) == multiset(Mapped(b, f))
    decreases |a|
  {
    if a == [] {
      assert |b| == |multiset(b)| == 0;
    } else {
      var n := |a| - 1;
      var x := a[n];
      SplitAt(a, n);
      assert a[..n] + a[n + 1..] == a[..n];
      assert x in multiset(b);
      var i :| 0 <= i < |b| && b[i] == x;
      SplitAt(b, i);
      var rest := b[..i] + b[i + 1..];
      MultisetCancel(multiset(a[..n]), multiset(rest), x);
      MappedPermutation(a[..n], rest, f);
      MappedRemove(a, n, f);
      MappedRemove(b, i, f);
    }
  }

  /** The sum does not depend on the order of the terms. */
  lemma {:induction false} SumPermutation(xs: seq<real>, ys: seq<real>)
    requires multiset(xs) == multiset(ys)
    ensures Sum(xs) == Sum(ys)
    decreases |xs|
  {
    if xs == [] {
      assert |ys| == |multiset(ys)| == 0;
    } else {
      var n := |xs| - 1;
      var x := xs[n];
      SplitAt(xs, n);
      assert xs[..n] + xs[n + 1..] == xs[..n];
      assert x in multiset(ys);
      var i :| 0 <= i < |ys| && ys[i] == x;
      SplitAt(ys, i);
      var rest := ys[..i] + ys[i + 1..];
      MultisetCancel(multiset(xs[..n]), multiset(rest), x);
      SumPermutation(xs[..n], rest);
      SumRemove(ys, i);
    }
  }

  /** Taking one term out of a sum leaves the sum of the others. */
  lemma SumRemove(ys: seq<real>, i: int)
    requires 0 <= i < |ys|
    ensures Sum(ys) == Sum(ys[..i] + ys[i + 1..]) + ys[i]
  {
    var before, x, after := ys[..i], ys[i], ys[i + 1..];
    assert Sum([x]) == x by {
      assert [x][..0] == [];
    }
    calc {
      Sum(ys);
      { SplitAround(ys, i); }
      Sum((before + [x]) + after);
      { SumAppend(before + [x], after); }
      Sum(before + [x]) + Sum(after);
      { SumAppend(before, [x]); }
      Sum(before) + x + Sum(after);
      { SumAppend(before, after); }
      Sum(before + after) + x;
    }
  }

  /** Termwise smaller terms have a smaller sum. */
  lemma {:induction false} SumMonotonic(xs: seq<real>, ys: seq<real>)
    requires |xs| == |ys|
    requires forall i :: 0 <= i < |xs| ==> xs[i] <= ys[i]
    ensures Sum(xs) <= Sum(ys)
  {
    if xs != [] {
      var n := |xs| - 1;
      SumMonotonic(xs[..n], ys[..n]);
    }
  }

  /** Summing x + y term by term gives Sum(xs) + Sum(ys). */
  lemma {:induction false} SumAdd(xs: seq<real>, ys: seq<real>, zs: seq<real>)
    requires |xs| == |ys| == |zs|
    requires forall i :: 0 <= i < |zs| ==> zs[i] == xs[i] + ys[i]
    ensures Sum(zs) == Sum(xs) + Sum(ys)
  {
    if zs != [] {
      var n := |zs| - 1;
      SumAdd(xs[..n], ys[..n], zs[..n]);
    }
  }
}
